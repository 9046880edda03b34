/** Bayesian online change-point detector (core/bocpd_gate.py).

    `Next` states one observation's effect on plain values, without the Python code's
    rescaling by the largest density; `BocpdDetector.Update` is the index-loop
    implementation, with the rescaling, and is proved equal to it. */
module Bocpd {
  import opened Numbers

  /** `pdf(x, mean, variance)` stands for the Gaussian density. */
  datatype Params = Params(
    lambda: real, cpMaxRun: int, transitionMaxRun: int, maxRun: nat, warmupBars: int,
    pdf: (real, real, real) -> real)

  datatype State = State(
    variance: real, warmup: seq<real>, frozen: bool,
    post: seq<real>, means: seq<real>, counts: seq<nat>,
    steps: nat, cpProb: real, mapRun: nat)

  /** exp(..)/sqrt(..) is never negative; it may underflow to zero. */
  ghost predicate IsDensity(pdf: (real, real, real) -> real) {
    forall x, m, v :: pdf(x, m, v) >= 0.0
  }

  function Initial(priorVar: Option<real>): State {
    State(if priorVar.Some? then priorVar.value else 0.000001, [], priorVar.Some?,
          [1.0], [0.0], [0], 0, 0.0, 0)
  }

  const TINY := 1e-300

  // ----- One observation on values ------------------------------------------

  /** xs[i] / k, element by element. */
  function Div(xs: seq<real>, k: real): (ys: seq<real>)
    requires k != 0.0
    ensures |ys| == |xs|
  {
    seq(|xs|, i requires 0 <= i < |xs| => xs[i] / k)
  }

  function Take<T>(xs: seq<T>, n: nat): seq<T> { if |xs| > n then xs[..n] else xs }

  function BatchVariance(xs: seq<real>): real
    requires xs != []
  {
    var n := |xs| as real;
    var m := Sum(xs) / n;
    Sum(seq(|xs|, i requires 0 <= i < |xs| => (xs[i] - m) * (xs[i] - m))) / n
  }

  /** The variance part of the state once x has been counted. */
  function Warm(p: Params, s: State, x: real): State {
    if s.frozen then s
    else
      var w := s.warmup + [x];
      if |w| >= p.warmupBars
      then s.(warmup := w, variance := Max(BatchVariance(w), 0.0000000001), frozen := true)
      else s.(warmup := w)
  }

  function PredictiveVar(variance: real, count: nat): real {
    variance * (1.0 + 1.0 / (1.0 + count as real))
  }

  function Density(p: Params, variance: real, x: real, mean: real, count: nat): real {
    p.pdf(x, mean, PredictiveVar(variance, count))
  }

  /** prev[r] * P(x | run length r). */
  function Weights(p: Params, variance: real, x: real, prev: seq<real>, means: seq<real>, counts: seq<nat>)
    : (w: seq<real>)
    requires |prev| == |means| == |counts|
    ensures |w| == |prev|
  {
    seq(|prev|, r requires 0 <= r < |prev| => prev[r] * Density(p, variance, x, means[r], counts[r]))
  }

  /** Mass h of every weight moves to run length 0, the rest grows by one. */
  function Joint(h: real, w: seq<real>): (j: seq<real>)
    ensures |j| == |w| + 1
  {
    [h * Sum(w)] + Grown(h, w)
  }

  function Grown(h: real, w: seq<real>): (g: seq<real>)
    ensures |g| == |w|
  {
    seq(|w|, r requires 0 <= r < |w| => (1.0 - h) * w[r])
  }

  function Renormalised(xs: seq<real>): seq<real> {
    if Sum(xs) > 0.0 then Div(xs, Sum(xs)) else xs
  }

  function Truncated(xs: seq<real>, n: nat): seq<real> {
    if |xs| > n then Renormalised(xs[..n]) else xs
  }

  function NextMean(x: real, mean: real, count: nat): real {
    ((1.0 + count as real) * mean + x) / (1.0 + (count + 1) as real)
  }

  function GrownMeans(x: real, means: seq<real>, counts: seq<nat>): (ms: seq<real>)
    requires |means| == |counts|
    ensures |ms| == |means| + 1
  {
    [x / 2.0] + seq(|means|, r requires 0 <= r < |means| => NextMean(x, means[r], counts[r]))
  }

  function GrownCounts(counts: seq<nat>): (cs: seq<nat>)
    ensures |cs| == |counts| + 1
  {
    [1] + seq(|counts|, r requires 0 <= r < |counts| => counts[r] + 1)
  }

  /** First index of the largest entry. */
  function ArgMax(xs: seq<real>): (k: nat)
    ensures xs != [] ==> k < |xs| && forall i :: 0 <= i < |xs| ==> xs[i] <= xs[k] && (i < k ==> xs[i] < xs[k])
  {
    if |xs| <= 1 then 0
    else
      var n := |xs| - 1;
      var k := ArgMax(xs[..n]);
      if xs[k] < xs[n] then n else k
  }

  /** The three lists indexed by run length. */
  datatype Lists = Lists(post: seq<real>, means: seq<real>, counts: seq<nat>)

  /** The recursion: hazard and growth, normalised; a zero total starts afresh. */
  function Recursed(p: Params, variance: real, x: real, l: Lists): (r: Lists)
    requires p.lambda != 0.0 && |l.post| == |l.means| == |l.counts|
    ensures |r.post| == |r.means| == |r.counts| == |l.post| + 1
  {
    var n, w := |l.post|, Weights(p, variance, x, l.post, l.means, l.counts);
    if Sum(w) <= 0.0 then Lists([1.0] + Zeros(n), [x / 2.0] + Zeros(n), [1] + NoCounts(n))
    else Lists(Div(Joint(1.0 / p.lambda, w), Sum(w)), GrownMeans(x, l.means, l.counts), GrownCounts(l.counts))
  }

  function Kept(l: Lists, maxRun: nat): Lists {
    Lists(Truncated(l.post, maxRun), Take(l.means, maxRun), Take(l.counts, maxRun))
  }

  function Next(p: Params, s: State, x: real): State
    requires p.lambda != 0.0 && |s.post| == |s.means| == |s.counts|
  {
    var s' := Warm(p, s, x);
    var l := Kept(Recursed(p, s'.variance, x, Lists(s.post, s.means, s.counts)), p.maxRun);
    s'.(post := l.post, means := l.means, counts := l.counts, steps := s.steps + 1,
        cpProb := if l.post == [] then 0.0 else l.post[0], mapRun := ArgMax(l.post))
  }

  // ----- The gate -----------------------------------------------------------

  predicate WarmedUp(p: Params, s: State) { s.frozen && s.steps >= p.warmupBars }

  predicate Changepoint(p: Params, s: State) { WarmedUp(p, s) && s.mapRun <= p.cpMaxRun }

  predicate Transition(p: Params, s: State) {
    WarmedUp(p, s) && !Changepoint(p, s) && s.mapRun <= p.transitionMaxRun
  }

  /** The largest entry is attained at an index up to `limit`; with no entry the run
      length counts as 0. */
  predicate PeaksWithin(post: seq<real>, limit: int) {
    if post == [] then 0 <= limit
    else exists r :: 0 <= r < |post| && r <= limit && forall i :: 0 <= i < |post| ==> post[i] <= post[r]
  }

  lemma PeaksWithinIff(post: seq<real>, limit: int)
    ensures PeaksWithin(post, limit) <==> ArgMax(post) <= limit
  {
    if post != [] && PeaksWithin(post, limit) {
      var r :| 0 <= r < |post| && r <= limit && forall i :: 0 <= i < |post| ==> post[i] <= post[r];
      assert r < ArgMax(post) ==> post[r] < post[ArgMax(post)];
    }
  }

  function Zeros(n: nat): seq<real> { seq(n, _ => 0.0) }

  function NoCounts(n: nat): seq<nat> { seq(n, _ => 0) }

  // ----- Arithmetic of rescaling --------------------------------------------

  lemma {:induction false} SumDiv(xs: seq<real>, k: real)
    requires k != 0.0
    ensures Sum(Div(xs, k)) == Sum(xs) / k
  {
    if xs != [] {
      var n := |xs| - 1;
      SumDiv(xs[..n], k);
      assert Div(xs, k)[..n] == Div(xs[..n], k);
      assert Sum(xs) / k == Sum(xs[..n]) / k + xs[n] / k;
    }
  }

  lemma {:induction false} SumScale(xs: seq<real>, ys: seq<real>, k: real)
    requires |ys| == |xs| && forall i :: 0 <= i < |xs| ==> ys[i] == k * xs[i]
    ensures Sum(ys) == k * Sum(xs)
  {
    if xs != [] {
      var n := |xs| - 1;
      SumScale(xs[..n], ys[..n], k);
    }
  }

  lemma SumCons(x: real, xs: seq<real>)
    ensures Sum([x] + xs) == x + Sum(xs)
  {
    SumConcat([x], xs);
    assert [x][..0] == [];
    assert Sum([x]) == x;
  }

  /** The hazard step moves mass about but creates none. */
  lemma JointSum(h: real, w: seq<real>)
    ensures Sum(Joint(h, w)) == Sum(w)
  {
    SumScale(w, Grown(h, w), 1.0 - h);
    hide Sum, Grown;
    SumCons(h * Sum(w), Grown(h, w));
    Shares(h, Sum(w));
  }

  lemma Shares(h: real, total: real)
    ensures h * total + (1.0 - h) * total == total
  {}

  lemma DivDiv(a: real, m: real, t: real)
    requires m != 0.0 && t != 0.0
    ensures t / m != 0.0 && a / m / (t / m) == a / t
  {
    var u := t / m;
    assert u * m == t;
    var q := a / t;
    assert q * t == a;
    var b := a / m;
    assert b * m == a;
    assert (q * u) * m == b * m;
    assert q * u == b;
  }

  lemma ScaledTerm(c: real, a: real, m: real, t: real)
    requires m != 0.0 && t != 0.0
    ensures t / m != 0.0 && c * (a / m) / (t / m) == c * a / t
  {
    DivDiv(c * a, m, t);
    assert c * (a / m) == c * a / m;
  }

  /** Dividing every weight by m > 0 does not change the normalised joint. */
  lemma RescalingCancels(h: real, w: seq<real>, m: real)
    requires m > 0.0 && Sum(w) > 0.0
    ensures var v := Div(w, m); Sum(v) > 0.0 && Div(Joint(h, v), Sum(v)) == Div(Joint(h, w), Sum(w))
  {
    var v, t := Div(w, m), Sum(w);
    SumDiv(w, m);
    SignOfQuotient(t, m);
    var j, k := Joint(h, v), Joint(h, w);
    hide Joint, Sum, Div;
    forall r | 0 <= r < |k|
      ensures Div(j, Sum(v))[r] == Div(k, t)[r]
    {
      if r == 0 { ScaledTerm(h, t, m, t); } else { ScaledTerm(1.0 - h, w[r - 1], m, t); }
    }
  }

  // ----- The detector -------------------------------------------------------

  class BocpdDetector {
    const p: Params
    var predictiveVar: real
    var warmupReturns: seq<real>
    var varFrozen: bool
    var rPosterior: seq<real>
    var runMeans: seq<real>
    var runCounts: seq<nat>
    var steps: nat
    var lastCpProb: real
    var lastMapRun: nat

    ghost predicate Shaped()
      reads this
    {
      p.lambda != 0.0 && IsDensity(p.pdf) && |rPosterior| == |runMeans| == |runCounts|
    }

    /** Between updates the stored MAP run length belongs to the stored posterior. */
    ghost predicate Valid()
      reads this
    {
      Shaped() && lastMapRun == ArgMax(rPosterior)
    }

    ghost function View(): State
      reads this
    {
      State(predictiveVar, warmupReturns, varFrozen, rPosterior, runMeans, runCounts,
            steps, lastCpProb, lastMapRun)
    }

    constructor (p: Params, priorVar: Option<real>)
      requires p.lambda != 0.0 && IsDensity(p.pdf)
      ensures Valid() && this.p == p && View() == Initial(priorVar)
    {
      this.p := p;
      predictiveVar := if priorVar.Some? then priorVar.value else 0.000001;
      warmupReturns, varFrozen := [], priorVar.Some?;
      rPosterior, runMeans, runCounts := [1.0], [0.0], [0];
      steps, lastCpProb, lastMapRun := 0, 0.0, 0;
    }

    /** The warm-up block: collect returns, then freeze the variance once. */
    method CollectWarmup(x: real)
      requires Shaped()
      modifies this`warmupReturns, this`predictiveVar, this`varFrozen
      ensures Shaped() && View() == Warm(p, old(View()), x)
    {
      if !varFrozen {
        warmupReturns := warmupReturns + [x];
        if |warmupReturns| >= p.warmupBars {
          predictiveVar := Max(BatchVariance(warmupReturns), 0.0000000001);
          varFrozen := true;
        }
      }
    }

    /** Densities of x under every run length, rescaled by the largest. */
    method ScaledPdfs(x: real) returns (pdfs: seq<real>, maxPdf: real)
      requires Shaped()
      ensures maxPdf > 0.0 && |pdfs| == |rPosterior|
      ensures forall r :: 0 <= r < |pdfs| ==>
        pdfs[r] == Density(p, predictiveVar, x, runMeans[r], runCounts[r]) / maxPdf
    {
      pdfs, maxPdf := [], 0.0;
      for r := 0 to |rPosterior|
        invariant |pdfs| == r && maxPdf >= 0.0
        invariant forall k :: 0 <= k < r ==> pdfs[k] == Density(p, predictiveVar, x, runMeans[k], runCounts[k])
      {
        var d := Density(p, predictiveVar, x, runMeans[r], runCounts[r]);
        pdfs := pdfs + [d];
        maxPdf := Max(maxPdf, d);
      }
      if maxPdf <= 0.0 { maxPdf := TINY; }
      pdfs := Div(pdfs, maxPdf);
    }

    /** The changepoint loop: every run length sends the hazard share to 0. */
    method ChangepointMass(h: real, pdfs: seq<real>, ghost w: seq<real>) returns (cpJoint: real)
      requires |pdfs| == |w| == |rPosterior|
      requires forall r :: 0 <= r < |w| ==> w[r] == rPosterior[r] * pdfs[r]
      ensures cpJoint == h * Sum(w)
    {
      cpJoint := 0.0;
      for r := 0 to |rPosterior|
        invariant cpJoint == h * Sum(w[..r])
      {
        assert w[..r + 1][..r] == w[..r];
        Assoc(h, rPosterior[r], pdfs[r]);
        cpJoint := cpJoint + h * rPosterior[r] * pdfs[r];
      }
      assert w[..|w|] == w;
    }

    /** The growth loop. */
    method GrowthMass(h: real, cpJoint: real, pdfs: seq<real>, ghost w: seq<real>) returns (newPost: seq<real>)
      requires |pdfs| == |w| == |rPosterior|
      requires forall r :: 0 <= r < |w| ==> w[r] == rPosterior[r] * pdfs[r]
      requires cpJoint == h * Sum(w)
      ensures newPost == Joint(h, w)
    {
      ghost var j := Joint(h, w);
      assert j[0] == cpJoint;
      newPost := [cpJoint];
      for r := 0 to |rPosterior|
        invariant newPost == j[..r + 1]
      {
        var joint := (1.0 - h) * rPosterior[r] * pdfs[r];
        Assoc(1.0 - h, rPosterior[r], pdfs[r]);
        assert w[r] == w[(r + 1) - 1];
        assert joint == j[r + 1];
        newPost := newPost + [joint];
      }
    }

    /** The sufficient statistics of the grown segments. */
    method GrowStatistics(x: real) returns (means: seq<real>, counts: seq<nat>)
      requires Shaped()
      ensures means == GrownMeans(x, runMeans, runCounts) && counts == GrownCounts(runCounts)
    {
      means, counts := [x / 2.0], [1];
      for r := 0 to |runMeans|
        invariant |means| == |counts| == r + 1 && means[0] == x / 2.0 && counts[0] == 1
        invariant forall k :: 0 < k <= r ==>
          means[k] == NextMean(x, runMeans[k - 1], runCounts[k - 1]) && counts[k] == runCounts[k - 1] + 1
      {
        var newSum := (1.0 + runCounts[r] as real) * runMeans[r] + x;
        var newCnt := runCounts[r] + 1;
        means := means + [newSum / (1.0 + newCnt as real)];
        counts := counts + [newCnt];
      }
    }

    /** First run length with the largest posterior. */
    method FindMap() returns (best: nat)
      ensures best == ArgMax(rPosterior)
    {
      best := 0;
      for r := 0 to |rPosterior|
        invariant best == ArgMax(rPosterior[..r])
      {
        assert rPosterior[..r + 1][..r] == rPosterior[..r];
        if rPosterior[best] < rPosterior[r] { best := r; }
      }
      assert rPosterior[..|rPosterior|] == rPosterior;
    }

    /** Cut the lists to the newest maxRun run lengths and store them. */
    method Store(post: seq<real>, means: seq<real>, counts: seq<nat>)
      requires Shaped() && |post| == |means| == |counts|
      modifies this`rPosterior, this`runMeans, this`runCounts, this`lastCpProb, this`lastMapRun
      ensures Valid()
      ensures Lists(rPosterior, runMeans, runCounts) == Kept(Lists(post, means, counts), p.maxRun)
      ensures lastCpProb == (if rPosterior == [] then 0.0 else rPosterior[0]) && lastMapRun == ArgMax(rPosterior)
    {
      hide Div, IsDensity, Sum, ArgMax;
      rPosterior, runMeans, runCounts := post, means, counts;
      if |post| > p.maxRun {
        rPosterior := post[..p.maxRun];
        runMeans, runCounts := means[..p.maxRun], counts[..p.maxRun];
        var total := Sum(rPosterior);
        if total > 0.0 { rPosterior := Div(rPosterior, total); }
      }
      assert |rPosterior| == |runMeans| == |runCounts|;
      lastCpProb := if rPosterior == [] then 0.0 else rPosterior[0];
      lastMapRun := FindMap();
    }

    /** The recursion proper: rescaled densities, joint mass, normalisation. */
    method Recurse(x: real) returns (newPost: seq<real>, newMeans: seq<real>, newCounts: seq<nat>)
      requires Shaped()
      ensures Lists(newPost, newMeans, newCounts)
           == Recursed(p, predictiveVar, x, Lists(rPosterior, runMeans, runCounts))
    {
      ghost var w := Weights(p, predictiveVar, x, rPosterior, runMeans, runCounts);
      hide Density, NextMean, Sum;
      var pdfs, m := ScaledPdfs(x);
      ghost var v := Div(w, m);
      assert forall r :: 0 <= r < |w| ==> v[r] == rPosterior[r] * pdfs[r];
      var cpJoint := ChangepointMass(1.0 / p.lambda, pdfs, v);
      newPost := GrowthMass(1.0 / p.lambda, cpJoint, pdfs, v);
      newMeans, newCounts := GrowStatistics(x);
      var total, n := Sum(newPost), |rPosterior|;
      JointSum(1.0 / p.lambda, v);
      SumDiv(w, m);
      SignOfQuotient(Sum(w), m);
      if total <= 0.0 {
        newPost := [1.0] + Zeros(n);
        newMeans, newCounts := [x / 2.0] + Zeros(n), [1] + NoCounts(n);
      } else {
        RescalingCancels(1.0 / p.lambda, w, m);
        newPost := Div(newPost, total);
      }
    }

    /** Feed one observation; None is a non-finite one and changes nothing. */
    method Update(obs: Option<real>)
      requires Valid()
      modifies this
      ensures Valid()
      ensures View() == if obs.None? then old(View()) else Next(p, old(View()), obs.value)
    {
      hide Recursed, Kept, Warm, ArgMax, IsDensity;
      if obs.Some? {
        ghost var s := View();
        CollectWarmup(obs.value);
        ghost var l := Lists(s.post, s.means, s.counts);
        assert Lists(rPosterior, runMeans, runCounts) == l;
        var post, means, counts := Recurse(obs.value);
        Store(post, means, counts);
        steps := steps + 1;
      }
    }

    predicate IsWarmedUp()
      reads this
      ensures IsWarmedUp() == WarmedUp(p, View())
    {
      varFrozen && steps >= p.warmupBars
    }

    /** The posterior peaks within the changepoint limit. */
    predicate IsChangepoint()
      requires Valid()
      reads this
      ensures IsChangepoint() <==> IsWarmedUp() && PeaksWithin(rPosterior, p.cpMaxRun)
    {
      PeaksWithinIff(rPosterior, p.cpMaxRun);
      IsWarmedUp() && lastMapRun <= p.cpMaxRun
    }

    /** The posterior peaks past the changepoint limit and within the transition one. */
    predicate IsTransition()
      requires Valid()
      reads this
      ensures IsTransition() <==> && IsWarmedUp() && !PeaksWithin(rPosterior, p.cpMaxRun)
                                  && PeaksWithin(rPosterior, p.transitionMaxRun)
      ensures IsTransition() ==> !IsChangepoint() && p.cpMaxRun < p.transitionMaxRun
    {
      PeaksWithinIff(rPosterior, p.transitionMaxRun);
      IsWarmedUp() && !IsChangepoint() && lastMapRun <= p.transitionMaxRun
    }

    predicate IsGatedBar()
      requires Valid()
      reads this
      ensures IsGatedBar() <==> && IsWarmedUp()
                                && (PeaksWithin(rPosterior, p.cpMaxRun) || PeaksWithin(rPosterior, p.transitionMaxRun))
    {
      IsChangepoint() || IsTransition()
    }
  }

  lemma Assoc(h: real, a: real, b: real)
    ensures h * a * b == h * (a * b)
  {}

  lemma SignOfQuotient(a: real, m: real)
    requires m > 0.0
    ensures a / m <= 0.0 <==> a <= 0.0
  {
    assert a / m * m == a;
  }
}
