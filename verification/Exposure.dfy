/** Exposure-capped position sizing in notional mode (core/exposure.py). */
module Exposure {
  import opened Numbers

  datatype Position = Position(symbol: string, entry: real, size: real)

  /** max_symbol_exposure_usd, max_total_exposure_usd and the two mode switches. */
  datatype Limits = Limits(unlimited: bool, independent: bool, maxSymbol: real, maxTotal: real)

  const LOTS_PER_UNIT := 10_000.0
  const STEP := 0.0001

  function Notional(entry: real, size: real): real { Abs(entry * size) }

  // ----- Exposure ------------------------------------------------------------------

  function Share(p: Position, symbol: string): real {
    if p.symbol == symbol then Notional(p.entry, p.size) else 0.0
  }

  function SymbolExposure(ps: seq<Position>, symbol: string): real {
    if ps == [] then 0.0 else SymbolExposure(ps[..|ps| - 1], symbol) + Share(ps[|ps| - 1], symbol)
  }

  function TotalExposure(ps: seq<Position>): real {
    if ps == [] then 0.0
    else
      var p := ps[|ps| - 1];
      TotalExposure(ps[..|ps| - 1]) + Notional(p.entry, p.size)
  }

  /** The sum of the listed symbols' exposures. */
  function Spread(ps: seq<Position>, symbols: seq<string>): real {
    if symbols == [] then 0.0
    else Spread(ps, symbols[..|symbols| - 1]) + SymbolExposure(ps, symbols[|symbols| - 1])
  }

  predicate Distinct(symbols: seq<string>) {
    forall i, j :: 0 <= i < j < |symbols| ==> symbols[i] != symbols[j]
  }

  lemma {:induction false} SpreadOfNothing(symbols: seq<string>)
    ensures Spread([], symbols) == 0.0
  {
    if symbols != [] { SpreadOfNothing(symbols[..|symbols| - 1]); }
  }

  /** One more position adds its notional once, where its symbol is listed. */
  lemma {:induction false} SpreadSnoc(ps: seq<Position>, p: Position, symbols: seq<string>)
    requires Distinct(symbols)
    ensures Spread(ps + [p], symbols)
         == Spread(ps, symbols) + if p.symbol in symbols then Notional(p.entry, p.size) else 0.0
  {
    hide Notional;
    if symbols != [] {
      var n := |symbols| - 1;
      SpreadSnoc(ps, p, symbols[..n]);
      assert (ps + [p])[..|ps|] == ps;
      assert symbols == symbols[..n] + [symbols[n]];
    }
  }

  /** Exposure summed symbol by symbol is exposure summed position by position. */
  lemma {:induction false} SpreadIsTotal(ps: seq<Position>, symbols: seq<string>)
    requires Distinct(symbols) && forall i :: 0 <= i < |ps| ==> ps[i].symbol in symbols
    ensures Spread(ps, symbols) == TotalExposure(ps)
  {
    hide Notional;
    if ps == [] {
      SpreadOfNothing(symbols);
    } else {
      var n := |ps| - 1;
      SpreadIsTotal(ps[..n], symbols);
      assert ps == ps[..n] + [ps[n]];
      SpreadSnoc(ps[..n], ps[n], symbols);
    }
  }

  /** The per-symbol dictionary, filled position by position, and its total,
      summed over the dictionary. */
  method ExposureFromPositions(ps: seq<Position>) returns (bySymbol: map<string, real>, total: real)
    ensures forall s :: (if s in bySymbol then bySymbol[s] else 0.0) == SymbolExposure(ps, s)
    ensures total == TotalExposure(ps)
  {
    hide Notional;
    bySymbol := map[];
    var symbols: seq<string> := [];
    for i := 0 to |ps|
      invariant forall s :: (if s in bySymbol then bySymbol[s] else 0.0) == SymbolExposure(ps[..i], s)
      invariant Distinct(symbols) && forall s :: s in bySymbol <==> s in symbols
      invariant forall k :: 0 <= k < i ==> ps[k].symbol in symbols
    {
      assert ps[..i + 1][..i] == ps[..i];
      var p := ps[i];
      if p.symbol !in bySymbol { symbols := symbols + [p.symbol]; }
      var before := if p.symbol in bySymbol then bySymbol[p.symbol] else 0.0;
      bySymbol := bySymbol[p.symbol := before + Notional(p.entry, p.size)];
    }
    assert ps[..|ps|] == ps;
    total := AddUp(ps, bySymbol, symbols);
    SpreadIsTotal(ps, symbols);
  }

  /** The sum over the dictionary. */
  method AddUp(ghost ps: seq<Position>, bySymbol: map<string, real>, symbols: seq<string>) returns (total: real)
    requires forall s :: s in symbols ==> s in bySymbol && bySymbol[s] == SymbolExposure(ps, s)
    ensures total == Spread(ps, symbols)
  {
    hide SymbolExposure;
    total := 0.0;
    for i := 0 to |symbols|
      invariant total == Spread(ps, symbols[..i])
    {
      assert symbols[..i + 1][..i] == symbols[..i];
      total := total + bySymbol[symbols[i]];
    }
    assert symbols[..|symbols|] == symbols;
  }

  // ----- The capped size -----------------------------------------------------------

  function Remaining(l: Limits, bySymbol: real, total: real): real {
    var symbolLeft := Max(0.0, l.maxSymbol - bySymbol);
    if l.independent then symbolLeft else Min(symbolLeft, Max(0.0, l.maxTotal - total))
  }

  function MaxSize(entry: real, remaining: real): real {
    if remaining <= 0.0 || entry <= 0.0 then 0.0 else Max(0.0, remaining / entry)
  }

  function Round4(x: real): real { Round(x, LOTS_PER_UNIT) }

  /** The size granted, or None when even the minimum size exceeds the limits. */
  function CapSize(l: Limits, size: real, entry: real, bySymbol: real, total: real, minSize: real): Option<real> {
    if l.unlimited then Some(Round4(Max(size, minSize)))
    else
      var maxAllowed := MaxSize(entry, Remaining(l, bySymbol, total));
      var capped := Min(size, maxAllowed);
      if capped < minSize then None
      else
        var floored := (capped * LOTS_PER_UNIT).Floor as real / LOTS_PER_UNIT;
        if floored < minSize then (if maxAllowed >= minSize then Some(minSize) else None) else Some(floored)
  }

  method CapSizeToExposureLimits(l: Limits, size: real, entry: real, symbol: string, ps: seq<Position>, minSize: real)
    returns (granted: Option<real>)
    ensures granted == CapSize(l, size, entry, SymbolExposure(ps, symbol), TotalExposure(ps), minSize)
  {
    hide MaxSize, Round4, Remaining;
    if l.unlimited { return Some(Round4(Max(size, minSize))); }
    var bySymbol, total := ExposureFromPositions(ps);
    var used := if symbol in bySymbol then bySymbol[symbol] else 0.0;
    var maxAllowed := MaxSize(entry, Remaining(l, used, total));
    var capped := Min(size, maxAllowed);
    if capped < minSize { return None; }
    var floored := (capped * LOTS_PER_UNIT).Floor as real / LOTS_PER_UNIT;
    if floored < minSize {
      if maxAllowed >= minSize { return Some(minSize); }
      return None;
    }
    return Some(floored);
  }

  // ----- Tightness -------------------------------------------------------------------

  /** The largest size that fits every limit and the request. */
  function BestSize(l: Limits, size: real, entry: real, bySymbol: real, total: real): real {
    Min(size, MaxSize(entry, Remaining(l, bySymbol, total)))
  }

  /** A signal is refused exactly when the best size is below the minimum; what is
      granted is never above the best size and less than one lot step below it. */
  lemma GrantIsTight(l: Limits, size: real, entry: real, bySymbol: real, total: real, minSize: real)
    requires !l.unlimited
    ensures var best, g := BestSize(l, size, entry, bySymbol, total), CapSize(l, size, entry, bySymbol, total, minSize);
            && (g.None? <==> best < minSize)
            && (g.Some? ==> minSize <= g.value <= best < g.value + STEP)
  {
    hide MaxSize, Remaining;
    var best := BestSize(l, size, entry, bySymbol, total);
    var k := (best * LOTS_PER_UNIT).Floor as real;
    assert k <= best * LOTS_PER_UNIT < k + 1.0;
    assert k / LOTS_PER_UNIT <= best < k / LOTS_PER_UNIT + STEP;
  }

  /** Every size up to the largest one fits what remains, and no larger size does. */
  lemma MaxSizeIsLargest(entry: real, remaining: real, size: real)
    requires entry > 0.0 && remaining >= 0.0 && size >= 0.0
    ensures size <= MaxSize(entry, remaining) <==> Notional(entry, size) <= remaining
  {
    var q := remaining / entry;
    MulDiv(remaining, entry);
    assert q * entry == remaining && entry * size == size * entry;
    if size <= q { MulMonotone(size, q, entry); }
    if size * entry <= q * entry { CancelMul(size, q, entry); }
    assert Notional(entry, size) == entry * size;
    if remaining == 0.0 { assert q == 0.0; }
  }

  /** A size that leaves the exposures within both limits, on raw numbers. */
  predicate Affordable(l: Limits, x: real, entry: real, bySymbol: real, total: real) {
    bySymbol + entry * x <= l.maxSymbol && (l.independent || total + entry * x <= l.maxTotal)
  }

  lemma AffordableIff(l: Limits, x: real, entry: real, bySymbol: real, total: real)
    requires entry > 0.0 && x > 0.0
    ensures Affordable(l, x, entry, bySymbol, total) <==> entry * x <= Remaining(l, bySymbol, total)
  {
    PositiveProduct(entry, x);
    var n := entry * x;
    assert n > 0.0;
  }

  /** A positive size is at most the best one exactly where it is requested, affordable
      and priced above 0; with none such the best size is 0, or a negative request. */
  lemma BestSizeIs(l: Limits, size: real, entry: real, bySymbol: real, total: real, x: real)
    ensures var best := BestSize(l, size, entry, bySymbol, total);
            && (x > 0.0 ==> (x <= best <==> entry > 0.0 && x <= size && Affordable(l, x, entry, bySymbol, total)))
            && (best <= 0.0 ==> best == if size < 0.0 then size else 0.0)
  {
    hide Affordable;
    var left := Remaining(l, bySymbol, total);
    assert left >= 0.0;
    hide Remaining;
    MaxSizeIsPositive(entry, left);
    if entry > 0.0 && x > 0.0 {
      AffordableIff(l, x, entry, bySymbol, total);
      PositiveProduct(entry, x);
      MaxSizeIsLargest(entry, left, x);
      hide MaxSize;
    }
  }

  lemma MaxSizeIsPositive(entry: real, remaining: real)
    requires remaining >= 0.0
    ensures MaxSize(entry, remaining) >= 0.0 && (entry <= 0.0 ==> MaxSize(entry, remaining) == 0.0)
  {}

  /** A signal is refused exactly where its request or what is affordable is below the
      minimum size; a grant is requested and affordable, whole lot steps or the minimum,
      and one step more would not be. */
  lemma GrantIff(l: Limits, size: real, entry: real, bySymbol: real, total: real, minSize: real)
    requires !l.unlimited && minSize > 0.0
    ensures var g := CapSize(l, size, entry, bySymbol, total, minSize);
            && (g.None? <==> entry <= 0.0 || size < minSize || !Affordable(l, minSize, entry, bySymbol, total))
            && (g.Some? ==> && minSize <= g.value <= size && Affordable(l, g.value, entry, bySymbol, total)
                            && !(g.value + STEP <= size && Affordable(l, g.value + STEP, entry, bySymbol, total))
                            && (g.value == minSize || OnGrid(g.value, LOTS_PER_UNIT)))
  {
    hide Affordable, CapSize, BestSize;
    var g := CapSize(l, size, entry, bySymbol, total, minSize);
    GrantIsTight(l, size, entry, bySymbol, total, minSize);
    BestSizeIs(l, size, entry, bySymbol, total, minSize);
    if g.Some? {
      GrantIsOnGrid(l, size, entry, bySymbol, total, minSize);
      BestSizeIs(l, size, entry, bySymbol, total, g.value);
      BestSizeIs(l, size, entry, bySymbol, total, g.value + STEP);
    }
  }

  lemma GrantIsOnGrid(l: Limits, size: real, entry: real, bySymbol: real, total: real, minSize: real)
    requires !l.unlimited && CapSize(l, size, entry, bySymbol, total, minSize).Some?
    ensures var g := CapSize(l, size, entry, bySymbol, total, minSize).value;
            g == minSize || OnGrid(g, LOTS_PER_UNIT)
  {
    hide MaxSize, Remaining;
    var k := (BestSize(l, size, entry, bySymbol, total) * LOTS_PER_UNIT).Floor;
    var q := k as real / LOTS_PER_UNIT;
    assert q * LOTS_PER_UNIT == k as real;
    assert OnGrid(q, LOTS_PER_UNIT);
    hide OnGrid;
  }

  /** In unlimited mode the request is granted whatever is open and whatever it costs:
      the larger of the requested and the minimum size, to four decimals. */
  lemma UnlimitedGrant(l: Limits, size: real, entry: real, bySymbol: real, total: real, minSize: real)
    requires l.unlimited
    ensures var g := CapSize(l, size, entry, bySymbol, total, minSize);
            var wanted := if size < minSize then minSize else size;
            g.Some? && OnGrid(g.value, LOTS_PER_UNIT) && -0.5 * STEP <= g.value - wanted <= 0.5 * STEP
  {
    var wanted := if size < minSize then minSize else size;
    RoundLandsOnGrid(wanted, LOTS_PER_UNIT);
    RoundError(wanted, LOTS_PER_UNIT);
    hide Round, OnGrid;
  }

  // ----- Limits over whole runs ----------------------------------------------------------

  datatype Step =
    | Admit(symbol: string, entry: real, fill: real, size: real, minSize: real)
    | Shrink(index: nat, size: real)
    | Close(index: nat)

  /** Sizing asks for a minimum above zero and the fill is not above the entry it
      sized for; a partial close leaves no more than was there. */
  predicate Allowed(ps: seq<Position>, s: Step) {
    match s
    case Admit(_, entry, fill, _, minSize) => minSize > 0.0 && (entry > 0.0 ==> 0.0 <= fill <= entry)
    case Shrink(i, size) => i < |ps| && 0.0 <= size <= ps[i].size
    case Close(i) => i < |ps|
  }

  function Apply(l: Limits, ps: seq<Position>, s: Step): seq<Position>
    requires Allowed(ps, s)
  {
    match s
    case Admit(symbol, entry, fill, size, minSize) =>
      var g := CapSize(l, size, entry, SymbolExposure(ps, symbol), TotalExposure(ps), minSize);
      if g.None? then ps else ps + [Position(symbol, fill, g.value)]
    case Shrink(i, size) => ps[i := ps[i].(size := size)]
    case Close(i) => ps[..i] + ps[i + 1..]
  }

  predicate AllAllowed(l: Limits, ps: seq<Position>, steps: seq<Step>)
    decreases |steps|
  {
    steps == [] || (Allowed(ps, steps[0]) && AllAllowed(l, Apply(l, ps, steps[0]), steps[1..]))
  }

  function Run(l: Limits, ps: seq<Position>, steps: seq<Step>): seq<Position>
    requires AllAllowed(l, ps, steps)
    decreases |steps|
  {
    if steps == [] then ps else Run(l, Apply(l, ps, steps[0]), steps[1..])
  }

  /** Exposure sums over two lists add up. */
  lemma {:induction false} ExposureConcat(ps: seq<Position>, qs: seq<Position>, symbol: string)
    ensures SymbolExposure(ps + qs, symbol) == SymbolExposure(ps, symbol) + SymbolExposure(qs, symbol)
    ensures TotalExposure(ps + qs) == TotalExposure(ps) + TotalExposure(qs)
  {
    hide Notional;
    if qs == [] {
      assert ps + qs == ps;
    } else {
      var n := |qs| - 1;
      ExposureConcat(ps, qs[..n], symbol);
      assert (ps + qs)[..|ps| + n] == ps + qs[..n];
    }
  }

  lemma OneExposure(p: Position, symbol: string)
    ensures SymbolExposure([p], symbol) == Share(p, symbol) && TotalExposure([p]) == Notional(p.entry, p.size)
    ensures 0.0 <= Share(p, symbol) <= Notional(p.entry, p.size)
  {
    hide Notional;
    assert [p][..0] == [] && SymbolExposure([], symbol) == 0.0 && TotalExposure([]) == 0.0;
    NotionalIsNonnegative(p.entry, p.size);
  }

  lemma NotionalIsNonnegative(entry: real, size: real)
    ensures Notional(entry, size) >= 0.0
  {}

  lemma SplitAt(ps: seq<Position>, i: nat, symbol: string)
    requires i < |ps|
    ensures SymbolExposure(ps, symbol)
         == SymbolExposure(ps[..i], symbol) + Share(ps[i], symbol) + SymbolExposure(ps[i + 1..], symbol)
    ensures TotalExposure(ps)
         == TotalExposure(ps[..i]) + Notional(ps[i].entry, ps[i].size) + TotalExposure(ps[i + 1..])
  {
    hide Notional, Share;
    assert ps == (ps[..i] + [ps[i]]) + ps[i + 1..];
    ExposureConcat(ps[..i] + [ps[i]], ps[i + 1..], symbol);
    ExposureConcat(ps[..i], [ps[i]], symbol);
    OneExposure(ps[i], symbol);
  }

  lemma SmallerIsLess(entry: real, size: real, less: real)
    requires 0.0 <= less <= size
    ensures Notional(entry, less) <= Notional(entry, size)
  {
    var a := Abs(entry);
    assert Notional(entry, less) == a * less && Notional(entry, size) == a * size by {
      assert entry * less == -((-entry) * less) && entry * size == -((-entry) * size);
    }
    assert a * (size - less) >= 0.0;
  }

  lemma CheaperIsLess(entry: real, fill: real, size: real)
    requires 0.0 <= fill <= entry
    ensures Notional(fill, size) <= Notional(entry, size)
  {
    SmallerIsLess(size, entry, fill);
    assert fill * size == size * fill && entry * size == size * entry;
  }

  /** The grant fits what remains of both limits. */
  lemma GrantFits(l: Limits, size: real, entry: real, bySymbol: real, total: real, minSize: real)
    requires !l.unlimited && minSize > 0.0
    requires CapSize(l, size, entry, bySymbol, total, minSize).Some?
    ensures var n := Notional(entry, CapSize(l, size, entry, bySymbol, total, minSize).value);
            bySymbol + n <= l.maxSymbol && (l.independent || total + n <= l.maxTotal)
  {
    hide CapSize, Notional;
    var g, left := CapSize(l, size, entry, bySymbol, total, minSize).value, Remaining(l, bySymbol, total);
    GrantIsTight(l, size, entry, bySymbol, total, minSize);
    assert 0.0 < g <= MaxSize(entry, left);
    MaxSizeIsLargest(entry, left, g);
  }

  /** A grant sized for `entry` but filled at `fill` keeps both limits. */
  predicate FitsAt(
    l: Limits, size: real, entry: real, fill: real, bySymbol: real, total: real, minSize: real)
  {
    var g := CapSize(l, size, entry, bySymbol, total, minSize);
    !l.unlimited && minSize > 0.0 && g.Some? ==>
      && bySymbol + Notional(fill, g.value) <= l.maxSymbol
      && (l.independent || total + Notional(fill, g.value) <= l.maxTotal)
  }

  ghost predicate AlwaysFits(entry: real, fill: real) {
    forall l, size, bySymbol, total, minSize :: FitsAt(l, size, entry, fill, bySymbol, total, minSize)
  }

  lemma FillAtOrBelowFits(
    l: Limits, size: real, entry: real, fill: real, bySymbol: real, total: real, minSize: real)
    requires 0.0 <= fill <= entry
    ensures FitsAt(l, size, entry, fill, bySymbol, total, minSize)
  {
    hide CapSize, Notional;
    var g := CapSize(l, size, entry, bySymbol, total, minSize);
    if !l.unlimited && minSize > 0.0 && g.Some? {
      GrantFits(l, size, entry, bySymbol, total, minSize);
      CheaperIsLess(entry, fill, g.value);
    }
  }

  lemma FillAboveOverruns(entry: real, fill: real)
    requires 0.0 < entry < fill
    ensures !FitsAt(Limits(false, true, entry, 0.0), 1.0, entry, fill, 0.0, 0.0, STEP)
  {
    var l := Limits(false, true, entry, 0.0);
    DivSelf(entry);
    assert MaxSize(entry, Remaining(l, 0.0, 0.0)) == 1.0;
    assert CapSize(l, 1.0, entry, 0.0, 0.0, STEP) == Some(1.0);
    assert Notional(fill, 1.0) == fill;
  }

  /** The limits hold after every capped admission exactly when the fill is not
      above the entry price that was sized for. */
  lemma FillFitsIffNotAboveEntry(entry: real, fill: real)
    requires entry > 0.0 && fill >= 0.0
    ensures AlwaysFits(entry, fill) <==> fill <= entry
  {
    hide FitsAt;
    if fill <= entry {
      forall l, size, bySymbol, total, minSize ensures FitsAt(l, size, entry, fill, bySymbol, total, minSize) {
        FillAtOrBelowFits(l, size, entry, fill, bySymbol, total, minSize);
      }
    } else {
      FillAboveOverruns(entry, fill);
    }
  }

  lemma GrantNeedsEntry(l: Limits, size: real, entry: real, bySymbol: real, total: real, minSize: real)
    requires !l.unlimited && minSize > 0.0 && CapSize(l, size, entry, bySymbol, total, minSize).Some?
    ensures entry > 0.0
  {
    hide Remaining, CapSize;
    GrantIsTight(l, size, entry, bySymbol, total, minSize);
  }

  /** No step lifts an exposure above its limit, nor above where it was if it was
      already over. */
  lemma StepKeepsLimits(l: Limits, ps: seq<Position>, s: Step, symbol: string)
    requires !l.unlimited && Allowed(ps, s)
    ensures SymbolExposure(Apply(l, ps, s), symbol) <= Max(SymbolExposure(ps, symbol), l.maxSymbol)
    ensures !l.independent ==> TotalExposure(Apply(l, ps, s)) <= Max(TotalExposure(ps), l.maxTotal)
  {
    hide Notional, CapSize;
    match s
    case Admit(sym, entry, fill, size, minSize) =>
      var g := CapSize(l, size, entry, SymbolExposure(ps, sym), TotalExposure(ps), minSize);
      if g.Some? {
        GrantNeedsEntry(l, size, entry, SymbolExposure(ps, sym), TotalExposure(ps), minSize);
        FillAtOrBelowFits(l, size, entry, fill, SymbolExposure(ps, sym), TotalExposure(ps), minSize);
        var p := Position(sym, fill, g.value);
        ExposureConcat(ps, [p], symbol);
        OneExposure(p, symbol);
      }
    case Shrink(i, size) =>
      var ps' := ps[i := ps[i].(size := size)];
      SplitAt(ps, i, symbol);
      SplitAt(ps', i, symbol);
      assert ps'[..i] == ps[..i] && ps'[i + 1..] == ps[i + 1..];
      SmallerIsLess(ps[i].entry, ps[i].size, size);
    case Close(i) =>
      SplitAt(ps, i, symbol);
      ExposureConcat(ps[..i], ps[i + 1..], symbol);
      OneExposure(ps[i], symbol);
  }

  /** Over any run of capped admissions, partial closes and closes, no symbol's
      exposure (nor, unless symbols are independent, the total) exceeds its limit,
      or its starting value where that was already above the limit. */
  lemma {:induction false} RunKeepsLimits(l: Limits, ps: seq<Position>, steps: seq<Step>, symbol: string)
    requires !l.unlimited && AllAllowed(l, ps, steps)
    ensures SymbolExposure(Run(l, ps, steps), symbol) <= Max(SymbolExposure(ps, symbol), l.maxSymbol)
    ensures !l.independent ==> TotalExposure(Run(l, ps, steps)) <= Max(TotalExposure(ps), l.maxTotal)
    decreases |steps|
  {
    hide Apply, Allowed;
    if steps != [] {
      StepKeepsLimits(l, ps, steps[0], symbol);
      RunKeepsLimits(l, Apply(l, ps, steps[0]), steps[1..], symbol);
    }
  }
}
