/** Realised PnL by UTC day and its statistics, as core/edge_monitor.py and
    core/canary.py both compute them. */
module DailyPnl {
  import opened Numbers

  const DAY := 86_400

  /** The UTC day of a time in seconds. */
  function Day(now: int): int { now / DAY }

  /** A closed trade; day is None when its timestamp is not an ISO date, and a field
      the record lacks is 0. */
  datatype ClosedTrade = ClosedTrade(symbol: string, day: Option<int>, pnl: real, profit: real)

  function Amount(t: ClosedTrade): real { if t.pnl != 0.0 then t.pnl else t.profit }

  // ----- Daily series ---------------------------------------------------------

  function PnlOn(t: ClosedTrade, symbol: string, day: int): real {
    if t.symbol == symbol && t.day == Some(day) then Amount(t) else 0.0
  }

  function DayPnl(ts: seq<ClosedTrade>, symbol: string, day: int): real {
    if ts == [] then 0.0 else DayPnl(ts[..|ts| - 1], symbol, day) + PnlOn(ts[|ts| - 1], symbol, day)
  }

  lemma DayPnlSnoc(ts: seq<ClosedTrade>, t: ClosedTrade, symbol: string, day: int)
    ensures DayPnl(ts + [t], symbol, day) == DayPnl(ts, symbol, day) + PnlOn(t, symbol, day)
  {
    assert (ts + [t])[..|ts|] == ts;
  }

  /** Daily PnL of the `days` days ending today, oldest first. */
  function Series(ts: seq<ClosedTrade>, symbol: string, today: int, days: int): (s: seq<real>)
    ensures |s| == if days <= 0 then 0 else days
  {
    if days <= 0 then [] else seq(days, i requires 0 <= i < days => DayPnl(ts, symbol, today - (days - 1) + i))
  }

  function OrZero(daily: map<int, real>, day: int): real { if day in daily then daily[day] else 0.0 }

  method RealizedDailySeries(ts: seq<ClosedTrade>, symbol: string, today: int, days: int) returns (series: seq<real>)
    ensures series == Series(ts, symbol, today, days)
  {
    if days <= 0 { return []; }
    var daily := BucketByDay(ts, symbol);
    series := [];
    for i := 0 to days
      invariant |series| == i
      invariant forall k :: 0 <= k < i ==> series[k] == DayPnl(ts, symbol, today - (days - 1) + k)
    {
      series := series + [OrZero(daily, today - (days - 1) + i)];
    }
  }

  method BucketByDay(ts: seq<ClosedTrade>, symbol: string) returns (daily: map<int, real>)
    ensures forall d :: OrZero(daily, d) == DayPnl(ts, symbol, d)
  {
    daily := map[];
    for i := 0 to |ts|
      invariant forall d :: OrZero(daily, d) == DayPnl(ts[..i], symbol, d)
    {
      hide DayPnl;
      var t := ts[i];
      ghost var before := daily;
      if t.symbol == symbol && t.day.Some? {
        daily := daily[t.day.value := OrZero(daily, t.day.value) + Amount(t)];
      }
      assert ts[..i + 1] == ts[..i] + [t];
      forall d ensures OrZero(daily, d) == DayPnl(ts[..i + 1], symbol, d) {
        assert OrZero(before, d) == DayPnl(ts[..i], symbol, d);
        DayPnlSnoc(ts[..i], t, symbol, d);
      }
    }
    assert ts[..|ts|] == ts;
  }

  // ----- Mean and deviation -----------------------------------------------------

  function Mean(xs: seq<real>): real
    requires xs != []
  {
    Sum(xs) / |xs| as real
  }

  /** The square of the population standard deviation. */
  function Variance(xs: seq<real>): real
    requires xs != []
  {
    Mean(seq(|xs|, i requires 0 <= i < |xs| => (xs[i] - Mean(xs)) * (xs[i] - Mean(xs))))
  }

  /** |diff| > sigma * std for a standard deviation above 0, without the square root. */
  predicate ExceedsStds(diff: real, sigma: real, variance: real) {
    sigma < 0.0 || diff * diff > sigma * sigma * variance
  }

  /** std is the population standard deviation: its square is the variance by moments. */
  predicate IsStd(xs: seq<real>, std: real) { xs != [] && std >= 0.0 && std * std == MomentVariance(xs) }

  lemma MeanIs(xs: seq<real>)
    requires xs != []
    ensures Mean(xs) == Sum(xs) / |xs| as real
  {}

  lemma VarianceByMoments(xs: seq<real>)
    requires xs != []
    ensures Variance(xs) == MomentVariance(xs)
  {
    hide *;
    var n := |xs| as real;
    VarianceAverages(xs, n, Sum(xs) / n);
    AverageByMoments(xs, n, Sum(xs) / n);
  }

  lemma VarianceAverages(xs: seq<real>, n: real, m: real)
    requires xs != [] && n == |xs| as real && m == Sum(xs) / n
    ensures Variance(xs) == Sum(SquareList(xs, m)) / n
  {
    hide Sum;
    assert Mean(xs) == m;
    assert SquareList(xs, Mean(xs)) == seq(|xs|, i requires 0 <= i < |xs| => (xs[i] - Mean(xs)) * (xs[i] - Mean(xs)));
  }

  // ----- Totals of the trades --------------------------------------------------------

  /** What a record realised: its PnL, or where that is 0 or missing its profit. */
  function Realised(t: ClosedTrade): real { match t.pnl != 0.0 case true => t.pnl case false => t.profit }

  /** The symbol's total over the trades dated from `first` to `last`. */
  function TotalBetween(ts: seq<ClosedTrade>, symbol: string, first: int, last: int): real {
    if ts == [] then 0.0
    else
      (if ts[0].symbol == symbol && ts[0].day.Some? && first <= ts[0].day.value <= last then Realised(ts[0]) else 0.0)
      + TotalBetween(ts[1..], symbol, first, last)
  }

  lemma {:induction false} TotalSnoc(ts: seq<ClosedTrade>, t: ClosedTrade, symbol: string, first: int, last: int)
    ensures TotalBetween(ts + [t], symbol, first, last)
         == TotalBetween(ts, symbol, first, last)
            + if t.symbol == symbol && t.day.Some? && first <= t.day.value <= last then Realised(t) else 0.0
  {
    if ts == [] {
      assert [] + [t] == [t] && [t][1..] == [];
    } else {
      TotalSnoc(ts[1..], t, symbol, first, last);
      assert (ts + [t])[1..] == ts[1..] + [t];
    }
  }

  /** A day's PnL is the total of the trades dated on it. */
  lemma {:induction false} DayPnlIsTotal(ts: seq<ClosedTrade>, symbol: string, day: int)
    ensures DayPnl(ts, symbol, day) == TotalBetween(ts, symbol, day, day)
  {
    if ts != [] {
      var n := |ts| - 1;
      DayPnlIsTotal(ts[..n], symbol, day);
      TotalSnoc(ts[..n], ts[n], symbol, day, day);
      assert ts[..n] + [ts[n]] == ts;
      hide TotalBetween, DayPnl;
      assert PnlOn(ts[n], symbol, day)
          == if ts[n].symbol == symbol && ts[n].day.Some? && day <= ts[n].day.value <= day
             then Realised(ts[n]) else 0.0;
      DayPnlSnoc(ts[..n], ts[n], symbol, day);
    }
  }

  lemma {:induction false} TotalsAddUp(ts: seq<ClosedTrade>, symbol: string, first: int, mid: int, last: int)
    requires first <= mid + 1 && mid <= last
    ensures TotalBetween(ts, symbol, first, last)
         == TotalBetween(ts, symbol, first, mid) + TotalBetween(ts, symbol, mid + 1, last)
  {
    if ts != [] { TotalsAddUp(ts[1..], symbol, first, mid, last); }
  }

  lemma {:induction false} TotalOfNoDays(ts: seq<ClosedTrade>, symbol: string, first: int, last: int)
    requires last < first
    ensures TotalBetween(ts, symbol, first, last) == 0.0
  {
    if ts != [] { TotalOfNoDays(ts[1..], symbol, first, last); }
  }

  /** The series' n-th partial sum is the total of the trades of its first n days. */
  lemma {:induction false} SeriesTotals(ts: seq<ClosedTrade>, symbol: string, today: int, days: int, n: nat)
    requires n <= |Series(ts, symbol, today, days)|
    ensures var first := today - days + 1;
            Sum(Series(ts, symbol, today, days)[..n]) == TotalBetween(ts, symbol, first, first + n - 1)
  {
    hide DayPnl, TotalBetween;
    var s, first := Series(ts, symbol, today, days), today - days + 1;
    if n == 0 {
      TotalOfNoDays(ts, symbol, first, first - 1);
    } else {
      SeriesTotals(ts, symbol, today, days, n - 1);
      assert s[..n] == s[..n - 1] + [s[n - 1]];
      SumSnoc(s[..n - 1], s[n - 1]);
      DayPnlIsTotal(ts, symbol, first + n - 1);
      TotalsAddUp(ts, symbol, first, first + n - 2, first + n - 1);
    }
  }

  lemma SquareOrder(a: real, b: real)
    requires a >= 0.0 && b >= 0.0
    ensures a > b <==> a * a > b * b
  {
    var d, t := a - b, a + b;
    assert d * t == a * a - b * b;
    if a > b { PositiveProduct(d, t); } else { PositiveProduct(-d, t); }
  }

  lemma ExceedsBySquares(diff: real, sigma: real, std: real)
    requires std > 0.0
    ensures ExceedsStds(diff, sigma, std * std) <==> Abs(diff) > sigma * std
  {
    var a, b := Abs(diff), sigma * std;
    if sigma < 0.0 {
      PositiveProduct(-sigma, std);
      assert (-sigma) * std == -b;
    } else {
      PositiveProduct(sigma, std);
      SquareOrder(a, b);
      assert a * a == diff * diff;
      assert b * b == sigma * sigma * (std * std);
    }
  }
}
