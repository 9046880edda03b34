/** What the online detector computes: the batch statistics of every segment,
    and the run-length posterior of the unnormalised forward recursion. */
module BocpdProofs {
  import opened Numbers
  import opened Bocpd

  function Run(p: Params, priorVar: Option<real>, xs: seq<real>): (s: State)
    requires p.lambda != 0.0
    ensures |s.post| == |s.means| == |s.counts|
  {
    if xs == [] then Initial(priorVar) else Next(p, Run(p, priorVar, xs[..|xs| - 1]), xs[|xs| - 1])
  }

  // ----- Batch definitions --------------------------------------------------

  /** Observations in the segment implied by run length r after t updates. */
  function SegmentCount(r: nat, t: nat): nat { if r + 1 <= t then r + 1 else t }

  function SegmentSum(xs: seq<real>, r: nat): real { Sum(xs[|xs| - SegmentCount(r, |xs|)..]) }

  /** Posterior mean of that segment: one pseudo-observation at 0. */
  function SegmentMean(xs: seq<real>, r: nat): real {
    SegmentSum(xs, r) / (1.0 + SegmentCount(r, |xs|) as real)
  }

  /** The number of observations after which the variance freezes. */
  function FreezeAt(p: Params): nat { if p.warmupBars < 1 then 1 else p.warmupBars }

  function BatchVar(p: Params, priorVar: Option<real>, xs: seq<real>): real {
    if priorVar.Some? then priorVar.value
    else if |xs| < FreezeAt(p) then 0.000001
    else
      var m := MomentVariance(xs[..FreezeAt(p)]);
      if m >= 0.0000000001 then m else 0.0000000001
  }

  /** The spread of the next observation of a segment that has n so far: its own
      variance v, and that of the segment's mean, which n + 1 observations pin. */
  function Spread(v: real, n: nat): real { v * (n + 2) as real / (n + 1) as real }

  /** P(x | run length r) for the newest observation, on batch statistics. */
  function BatchDensity(p: Params, priorVar: Option<real>, xs: seq<real>, r: nat): real
    requires xs != []
  {
    var t := |xs| - 1;
    p.pdf(xs[t], SegmentMean(xs[..t], r), Spread(BatchVar(p, priorVar, xs), SegmentCount(r, t)))
  }

  function ForwardWeights(p: Params, priorVar: Option<real>, xs: seq<real>, prev: seq<real>): (w: seq<real>)
    requires xs != []
    ensures |w| == |prev|
  {
    seq(|prev|, r requires 0 <= r < |prev| => prev[r] * BatchDensity(p, priorVar, xs, r))
  }

  /** The forward recursion of Adams and MacKay with nothing normalised or
      rescaled, only truncated, on the batch statistics. */
  function Forward(p: Params, priorVar: Option<real>, xs: seq<real>): seq<real>
    requires p.lambda != 0.0
  {
    if xs == [] then [1.0]
    else
      Take(Joint(1.0 / p.lambda, ForwardWeights(p, priorVar, xs, Forward(p, priorVar, xs[..|xs| - 1]))), p.maxRun)
  }

  // ----- Variance and spread ----------------------------------------------------

  lemma SquaresAverage(xs: seq<real>, n: real, m: real)
    requires xs != [] && n == |xs| as real && m == Sum(xs) / n
    ensures BatchVariance(xs) == Sum(SquareList(xs, m)) / n
  {
    hide Sum;
    assert SquareList(xs, m) == seq(|xs|, i requires 0 <= i < |xs| => (xs[i] - m) * (xs[i] - m));
  }

  /** Squared distances from the mean average to the variance by moments. */
  lemma VarianceByMoments(xs: seq<real>)
    requires xs != []
    ensures BatchVariance(xs) == MomentVariance(xs)
  {
    hide *;
    var n := |xs| as real;
    SquaresAverage(xs, n, Sum(xs) / n);
    AverageByMoments(xs, n, Sum(xs) / n);
  }

  /** The predictive variance is that spread: twice the variance for a new segment,
      between one and two variances for any other, and smaller with each
      observation. */
  lemma PredictiveSpread(v: real, n: nat)
    ensures PredictiveVar(v, n) == Spread(v, n)
    ensures v > 0.0 ==> v < PredictiveVar(v, n) <= 2.0 * v && (PredictiveVar(v, n) == 2.0 * v <==> n == 0)
    ensures v > 0.0 ==> PredictiveVar(v, n + 1) < PredictiveVar(v, n)
  {
    SpreadIs(v, n);
    hide Spread;
    var k := (n + 1) as real;
    assert 1.0 + n as real == k && 1.0 + (n + 1) as real == k + 1.0;
    Reciprocals(k);
    if v > 0.0 { Weighs(v, 1.0 / k, 1.0 / (k + 1.0)); }
  }

  lemma Reciprocals(k: real)
    requires k >= 1.0
    ensures 0.0 < 1.0 / (k + 1.0) < 1.0 / k <= 1.0 && (1.0 / k == 1.0 <==> k == 1.0)
  {
    var a, b := 1.0 / k, 1.0 / (k + 1.0);
    MulDiv(1.0, k);
    MulDiv(1.0, k + 1.0);
    assert a > 0.0 && b > 0.0;
    ReciprocalOrder(k, k + 1.0, a, b);
    if k > 1.0 { ReciprocalOrder(1.0, k, 1.0, a); }
  }

  lemma ReciprocalOrder(k: real, l: real, a: real, b: real)
    requires 0.0 < k < l && a * k == 1.0 && b * l == 1.0 && a > 0.0 && b > 0.0
    ensures b < a
  {
    var al, ak := a * l, a * k;
    Distribute(l, k, a);
    PositiveProduct(l - k, a);
    assert al > ak;
    if b >= a { MulMonotone(a, b, l); }
  }

  lemma Weighs(v: real, a: real, b: real)
    requires v > 0.0 && 0.0 < b < a <= 1.0
    ensures v < v * (1.0 + b) < v * (1.0 + a) <= 2.0 * v && (v * (1.0 + a) == 2.0 * v <==> a == 1.0)
  {
    var x, y := v * a, v * b;
    assert v * (1.0 + a) == v + x && v * (1.0 + b) == v + y;
    PositiveProduct(v, b);
    PositiveProduct(v, a - b);
    PositiveProduct(v, 1.0 - a);
    assert v * (a - b) == x - y && v * (1.0 - a) == v - x;
  }

  lemma SpreadIs(v: real, n: nat)
    ensures PredictiveVar(v, n) == Spread(v, n)
  {
    var k := (n + 1) as real;
    assert (n + 2) as real == k + 1.0 && 1.0 + n as real == k;
    MulDiv(1.0, k);
    SpreadScaled(v, k, 1.0 / k, v * (k + 1.0));
  }

  lemma SpreadScaled(v: real, k: real, a: real, w: real)
    requires k > 0.0 && a * k == 1.0 && w == v * (k + 1.0)
    ensures v * (1.0 + a) == w / k
  {
    var s, t := v * (1.0 + a), w / k;
    MulDiv(w, k);
    var va := v * a;
    assert s == v + va;
    assert va * k == v * (a * k);
    assert s * k == v * k + v;
    assert w == v * k + v;
    CancelMul(s, t, k);
    CancelMul(t, s, k);
  }

  // ----- Online statistics equal batch ones ---------------------------------

  lemma NextWarms(p: Params, s: State, x: real)
    requires p.lambda != 0.0 && |s.post| == |s.means| == |s.counts|
    ensures var s', q := Next(p, s, x), Warm(p, s, x);
            s'.steps == s.steps + 1 && s'.variance == q.variance && s'.frozen == q.frozen && s'.warmup == q.warmup
  {
    hide Recursed, Kept, ArgMax, Warm;
  }

  lemma {:induction false} WarmupIsBatch(p: Params, priorVar: Option<real>, xs: seq<real>)
    requires p.lambda != 0.0
    ensures var s := Run(p, priorVar, xs);
            && s.steps == |xs| && s.variance == BatchVar(p, priorVar, xs)
            && s.frozen == (priorVar.Some? || |xs| >= FreezeAt(p))
            && (!s.frozen ==> s.warmup == xs)
  {
    hide Next, BatchVariance, MomentVariance;
    if xs != [] {
      var t := |xs| - 1;
      WarmupIsBatch(p, priorVar, xs[..t]);
      NextWarms(p, Run(p, priorVar, xs[..t]), xs[t]);
      assert xs == xs[..t] + [xs[t]];
      if |xs| == FreezeAt(p) {
        assert xs[..FreezeAt(p)] == xs;
        VarianceByMoments(xs);
      }
      if |xs| > FreezeAt(p) { assert xs[..t][..FreezeAt(p)] == xs[..FreezeAt(p)]; }
    }
  }

  /** Once frozen, the predictive variance never changes. */
  lemma {:induction false} FrozenVarianceIsForever(p: Params, s: State, x: real)
    requires p.lambda != 0.0 && |s.post| == |s.means| == |s.counts|
    ensures var s' := Next(p, s, x); s.frozen ==> s'.frozen && s'.variance == s.variance
  {}

  /** Every run length's count and mean are those of the last observations. */
  ghost predicate BatchStatistics(s: State, xs: seq<real>) {
    forall r :: 0 <= r < |s.post| && r < |s.means| && r < |s.counts| ==>
      s.counts[r] == SegmentCount(r, |xs|) && s.means[r] == SegmentMean(xs, r)
  }

  lemma MeanStep(sum: real, c: nat, x: real)
    ensures NextMean(x, sum / (1.0 + c as real), c) == (sum + x) / (1.0 + (c + 1) as real)
  {
    var k := 1.0 + c as real;
    assert k * (sum / k) == sum;
  }

  lemma GrownSegment(xs: seq<real>, x: real, r: nat)
    ensures SegmentCount(r + 1, |xs + [x]|) == SegmentCount(r, |xs|) + 1
    ensures SegmentSum(xs + [x], r + 1) == SegmentSum(xs, r) + x
  {
    var c, ys := SegmentCount(r, |xs|), xs + [x];
    assert ys[|ys| - (c + 1)..] == xs[|xs| - c..] + [x];
    SumSnoc(xs[|xs| - c..], x);
  }

  lemma GrownMeanIsBatch(xs: seq<real>, x: real, r: nat)
    ensures NextMean(x, SegmentMean(xs, r), SegmentCount(r, |xs|)) == SegmentMean(xs + [x], r + 1)
  {
    hide SegmentSum, SegmentCount, NextMean;
    GrownSegment(xs, x, r);
    MeanStep(SegmentSum(xs, r), SegmentCount(r, |xs|), x);
  }

  lemma NewSegmentIsBatch(xs: seq<real>, x: real)
    ensures SegmentMean(xs + [x], 0) == x / 2.0 && SegmentCount(0, |xs| + 1) == 1
  {
    assert (xs + [x])[|xs|..] == [] + [x];
    SumSnoc([], x);
  }

  /** The weights of one update: posterior mass times density. */
  function UpdateWeights(p: Params, s: State, x: real): (w: seq<real>)
    requires |s.post| == |s.means| == |s.counts|
    ensures |w| == |s.post|
  {
    Weights(p, Warm(p, s, x).variance, x, s.post, s.means, s.counts)
  }

  lemma NextLists(p: Params, s: State, x: real)
    requires p.lambda != 0.0 && |s.post| == |s.means| == |s.counts| && Sum(UpdateWeights(p, s, x)) > 0.0
    ensures var s', w := Next(p, s, x), UpdateWeights(p, s, x);
            && s'.post == Truncated(Div(Joint(1.0 / p.lambda, w), Sum(w)), p.maxRun)
            && s'.means == Take(GrownMeans(x, s.means, s.counts), p.maxRun)
            && s'.counts == Take(GrownCounts(s.counts), p.maxRun)
  {
    hide Sum, Weights, Truncated, ArgMax, GrownMeans, GrownCounts, Joint, Warm;
  }

  lemma StatisticsStep(p: Params, s: State, xs: seq<real>, x: real)
    requires p.lambda != 0.0 && |s.post| == |s.means| == |s.counts| && BatchStatistics(s, xs)
    requires Sum(UpdateWeights(p, s, x)) > 0.0
    ensures BatchStatistics(Next(p, s, x), xs + [x])
  {
    hide Next, Sum, UpdateWeights, NextMean, SegmentMean;
    var s' := Next(p, s, x);
    NextLists(p, s, x);
    NewSegmentIsBatch(xs, x);
    forall r | 0 <= r < |s'.post| && r < |s'.means| && r < |s'.counts|
      ensures s'.counts[r] == SegmentCount(r, |xs| + 1) && s'.means[r] == SegmentMean(xs + [x], r)
    {
      if r > 0 { GrownMeanIsBatch(xs, x, r - 1); }
    }
  }

  // ----- The posterior is the normalised forward recursion ------------------

  ghost predicate PositiveDensity(pdf: (real, real, real) -> real) {
    forall x, m, v :: v > 0.0 ==> pdf(x, m, v) > 0.0
  }

  /** A geometric hazard of mean at least one bar, room for one run length, and
      densities that do not vanish. */
  ghost predicate Proper(p: Params, priorVar: Option<real>) {
    p.lambda >= 1.0 && p.maxRun >= 1 && PositiveDensity(p.pdf) && (priorVar.Some? ==> priorVar.value > 0.0)
  }

  /** Non-negative masses, the first of them positive. */
  predicate Masses(f: seq<real>) {
    f != [] && f[0] > 0.0 && forall r :: 0 <= r < |f| ==> f[r] >= 0.0
  }

  lemma {:induction false} MassesSum(f: seq<real>)
    requires Masses(f)
    ensures Sum(f) > 0.0
  {
    if |f| > 1 { MassesSum(f[..|f| - 1]); }
  }

  function Normal(f: seq<real>): seq<real>
    requires Sum(f) != 0.0
  {
    Div(f, Sum(f))
  }

  lemma NormaliseCancels(xs: seq<real>, m: real)
    requires m > 0.0 && Sum(xs) > 0.0
    ensures Renormalised(Div(xs, m)) == Normal(xs)
  {
    SumDiv(xs, m);
    var ys, t := Div(xs, m), Sum(xs);
    SignOfQuotient(t, m);
    hide Sum;
    forall i | 0 <= i < |xs|
      ensures Div(ys, t / m)[i] == Div(xs, t)[i]
    {
      DivDiv(xs[i], m, t);
    }
  }

  lemma JointMasses(h: real, w: seq<real>)
    requires 0.0 < h <= 1.0 && Masses(w)
    ensures Masses(Joint(h, w))
  {
    MassesSum(w);
    var j := Joint(h, w);
    hide Sum;
    forall r | 0 < r < |j|
      ensures j[r] >= 0.0
    {
      assert j[r] == (1.0 - h) * w[r - 1];
    }
  }

  lemma HazardInUnit(lambda: real)
    requires lambda >= 1.0
    ensures 0.0 < 1.0 / lambda <= 1.0
  {
    assert 1.0 / lambda * lambda == 1.0;
  }

  /** Truncating a normalised list and renormalising normalises the truncation. */
  lemma TruncationNormalises(j: seq<real>, n: nat)
    requires Masses(j) && n >= 1
    ensures Masses(Take(j, n)) && Sum(Take(j, n)) > 0.0 && Sum(j) > 0.0
    ensures Truncated(Normal(j), n) == Normal(Take(j, n))
  {
    MassesSum(j);
    MassesSum(Take(j, n));
    if |j| > n {
      assert Div(j, Sum(j))[..n] == Div(j[..n], Sum(j));
      NormaliseCancels(j[..n], Sum(j));
    }
  }

  lemma BatchVarPositive(p: Params, priorVar: Option<real>, xs: seq<real>)
    requires priorVar.Some? ==> priorVar.value > 0.0
    ensures BatchVar(p, priorVar, xs) > 0.0
  {
    hide MomentVariance;
  }

  lemma BatchDensityPositive(p: Params, priorVar: Option<real>, xs: seq<real>, r: nat)
    requires Proper(p, priorVar) && xs != []
    ensures BatchDensity(p, priorVar, xs, r) > 0.0
  {
    BatchVarPositive(p, priorVar, xs);
    PredictiveSpread(BatchVar(p, priorVar, xs), SegmentCount(r, |xs| - 1));
    hide BatchVar, SegmentMean, PredictiveVar, Spread;
    var t := |xs| - 1;
    var x, m, v := xs[t], SegmentMean(xs[..t], r), Spread(BatchVar(p, priorVar, xs), SegmentCount(r, t));
    assert v > 0.0 && p.pdf(x, m, v) > 0.0;
  }

  lemma ForwardWeightsMasses(p: Params, priorVar: Option<real>, xs: seq<real>, f: seq<real>)
    requires Proper(p, priorVar) && xs != [] && Masses(f)
    ensures Masses(ForwardWeights(p, priorVar, xs, f))
  {
    var w := ForwardWeights(p, priorVar, xs, f);
    hide BatchDensity;
    forall r | 0 <= r < |w|
      ensures w[r] >= 0.0 && (f[r] > 0.0 ==> w[r] > 0.0)
    {
      BatchDensityPositive(p, priorVar, xs, r);
    }
  }

  /** State s, reached on xs, is the normalised f with batch statistics. */
  ghost predicate Matches(p: Params, priorVar: Option<real>, s: State, f: seq<real>, xs: seq<real>) {
    && |s.post| == |s.means| == |s.counts| == |f| && Masses(f) && Sum(f) > 0.0
    && s.post == Normal(f) && BatchStatistics(s, xs)
  }

  lemma ScaledProduct(a: real, s: real, d: real)
    requires s != 0.0
    ensures a / s * d == a * d / s
  {}

  /** On batch statistics the detector weighs its posterior by the batch densities. */
  lemma WeightsAreBatch(p: Params, priorVar: Option<real>, xs: seq<real>, s: State)
    requires xs != [] && |s.post| == |s.means| == |s.counts| && BatchStatistics(s, xs[..|xs| - 1])
    requires Warm(p, s, xs[|xs| - 1]).variance == BatchVar(p, priorVar, xs)
    ensures UpdateWeights(p, s, xs[|xs| - 1]) == ForwardWeights(p, priorVar, xs, s.post)
  {
    hide Warm, BatchVar, SegmentMean, Spread, PredictiveVar;
    var t := |xs| - 1;
    var w, fw := UpdateWeights(p, s, xs[t]), ForwardWeights(p, priorVar, xs, s.post);
    forall r | 0 <= r < |w|
      ensures w[r] == fw[r]
    {
      assert s.counts[r] == SegmentCount(r, t) && s.means[r] == SegmentMean(xs[..t], r);
      PredictiveSpread(BatchVar(p, priorVar, xs), SegmentCount(r, t));
    }
  }

  lemma WeightsScale(p: Params, priorVar: Option<real>, xs: seq<real>, f: seq<real>, k: real)
    requires xs != [] && k != 0.0
    ensures ForwardWeights(p, priorVar, xs, Div(f, k)) == Div(ForwardWeights(p, priorVar, xs, f), k)
  {
    hide BatchDensity;
    forall r | 0 <= r < |f|
      ensures ForwardWeights(p, priorVar, xs, Div(f, k))[r] == Div(ForwardWeights(p, priorVar, xs, f), k)[r]
    {
      ScaledProduct(f[r], k, BatchDensity(p, priorVar, xs, r));
    }
  }

  lemma StepWeights(p: Params, priorVar: Option<real>, xs: seq<real>, s: State, f: seq<real>)
    requires Proper(p, priorVar) && xs != [] && Matches(p, priorVar, s, f, xs[..|xs| - 1])
    requires Warm(p, s, xs[|xs| - 1]).variance == BatchVar(p, priorVar, xs)
    ensures var fw := ForwardWeights(p, priorVar, xs, f);
            Masses(fw) && UpdateWeights(p, s, xs[|xs| - 1]) == Div(fw, Sum(f))
  {
    hide Warm, ForwardWeights, UpdateWeights, Sum, BatchVar, Masses, Div, Proper, BatchStatistics;
    ForwardWeightsMasses(p, priorVar, xs, f);
    WeightsAreBatch(p, priorVar, xs, s);
    WeightsScale(p, priorVar, xs, f, Sum(f));
  }

  lemma StepMatches(p: Params, priorVar: Option<real>, xs: seq<real>, s: State, f: seq<real>)
    requires Proper(p, priorVar) && xs != [] && Matches(p, priorVar, s, f, xs[..|xs| - 1])
    requires Warm(p, s, xs[|xs| - 1]).variance == BatchVar(p, priorVar, xs)
    ensures var j := Joint(1.0 / p.lambda, ForwardWeights(p, priorVar, xs, f));
            Matches(p, priorVar, Next(p, s, xs[|xs| - 1]), Take(j, p.maxRun), xs)
    ensures Sum(UpdateWeights(p, s, xs[|xs| - 1])) > 0.0
  {
    hide Warm, ForwardWeights, UpdateWeights, Next, Sum, Joint, BatchVar, Masses, Div, BatchStatistics, Take, Normal;
    var t := |xs| - 1;
    StepWeights(p, priorVar, xs, s, f);
    PosteriorStep(p, priorVar, s, xs[t], ForwardWeights(p, priorVar, xs, f), Sum(f));
    StatisticsStep(p, s, xs[..t], xs[t]);
    assert xs[..t] + [xs[t]] == xs;
  }

  lemma PosteriorStep(p: Params, priorVar: Option<real>, s: State, x: real, fw: seq<real>, k: real)
    requires Proper(p, priorVar) && |s.post| == |s.means| == |s.counts|
    requires Masses(fw) && k > 0.0 && UpdateWeights(p, s, x) == Div(fw, k)
    ensures var f := Take(Joint(1.0 / p.lambda, fw), p.maxRun);
            && Masses(f) && Sum(f) > 0.0 && Sum(UpdateWeights(p, s, x)) > 0.0
            && Next(p, s, x).post == Normal(f)
            && |Next(p, s, x).post| == |Next(p, s, x).means| == |Next(p, s, x).counts| == |f|
  {
    hide Warm, UpdateWeights, Next, Sum, Joint, Truncated, Div;
    var h := 1.0 / p.lambda;
    MassesSum(fw);
    RescalingCancels(h, fw, k);
    JointSum(h, fw);
    HazardInUnit(p.lambda);
    JointMasses(h, fw);
    TruncationNormalises(Joint(h, fw), p.maxRun);
    NextLists(p, s, x);
  }

  lemma WarmVariance(p: Params, priorVar: Option<real>, xs: seq<real>)
    requires p.lambda != 0.0 && xs != []
    ensures Warm(p, Run(p, priorVar, xs[..|xs| - 1]), xs[|xs| - 1]).variance == BatchVar(p, priorVar, xs)
  {
    hide Next, Warm, BatchVar;
    WarmupIsBatch(p, priorVar, xs);
    NextWarms(p, Run(p, priorVar, xs[..|xs| - 1]), xs[|xs| - 1]);
  }

  /** For every observation stream the detector's posterior, rescaled by the
      largest density, normalised at each step, truncated and renormalised, is
      the plain forward recursion normalised once; its counts and means are
      those of the last observations; its length is min(t + 1, maxRun); and the
      zero-mass reset is never taken. */
  lemma {:induction false} PosteriorIsNormalisedForward(p: Params, priorVar: Option<real>, xs: seq<real>)
    requires Proper(p, priorVar)
    ensures var s, f := Run(p, priorVar, xs), Forward(p, priorVar, xs);
            && Matches(p, priorVar, s, f, xs)
            && |s.post| == (if |xs| + 1 <= p.maxRun then |xs| + 1 else p.maxRun)
            && (xs != [] ==> Sum(UpdateWeights(p, Run(p, priorVar, xs[..|xs| - 1]), xs[|xs| - 1])) > 0.0)
  {
    var s, f := Run(p, priorVar, xs), Forward(p, priorVar, xs);
    if xs == [] {
      assert Sum([1.0]) == 1.0;
      assert Div([1.0], 1.0) == [1.0];
    } else {
      var before, x := xs[..|xs| - 1], xs[|xs| - 1];
      var s0, f0 := Run(p, priorVar, before), Forward(p, priorVar, before);
      hide Next, UpdateWeights, Warm, Joint, Take, ForwardWeights, BatchVar, Proper, Sum, Matches;
      PosteriorIsNormalisedForward(p, priorVar, before);
      WarmVariance(p, priorVar, xs);
      StepMatches(p, priorVar, xs, s0, f0);
      assert s == Next(p, s0, x);
      hide Run, Forward;
      assert Matches(p, priorVar, s, f, xs);
    }
    hide Run, Forward, Masses, BatchStatistics, UpdateWeights, Sum, Normal, Next;
    ForwardLength(p, priorVar, xs);
  }

  lemma {:induction false} ForwardLength(p: Params, priorVar: Option<real>, xs: seq<real>)
    requires p.lambda != 0.0 && p.maxRun >= 1
    ensures |Forward(p, priorVar, xs)| == if |xs| + 1 <= p.maxRun then |xs| + 1 else p.maxRun
  {
    if xs != [] {
      ForwardLength(p, priorVar, xs[..|xs| - 1]);
      hide ForwardWeights;
    }
  }

  // ----- The forward recursion, entry by entry ------------------------------------

  /** f is a share 1/lambda of the mass. */
  predicate IsShare(f: real, lambda: real, mass: real) { f * lambda == mass }

  /** f is the rest of a mass weighed by a density. */
  predicate IsRest(f: real, lambda: real, mass: real, density: real) {
    f * lambda == (lambda - 1.0) * (mass * density)
  }

  lemma ShareIs(f: real, lambda: real, mass: real)
    requires lambda != 0.0 && f == 1.0 / lambda * mass
    ensures IsShare(f, lambda, mass)
  {
    var h := 1.0 / lambda;
    assert h * lambda == 1.0;
    assert h * mass * lambda == mass * (h * lambda);
  }

  lemma RestIs(f: real, lambda: real, w: real, mass: real, density: real)
    requires lambda != 0.0 && f == (1.0 - 1.0 / lambda) * w && w == mass * density
    ensures IsRest(f, lambda, mass, density)
  {
    var h := 1.0 / lambda;
    assert h * lambda == 1.0;
    var hw := h * w;
    assert f == w - hw;
    assert hw * lambda == w * (h * lambda);
    assert f * lambda == w * lambda - w;
    assert (lambda - 1.0) * w == w * lambda - w;
  }

  lemma JointEntry(h: real, w: seq<real>, n: nat, r: nat)
    requires r < |Take(Joint(h, w), n)|
    ensures Take(Joint(h, w), n)[r] == if r == 0 then h * Sum(w) else (1.0 - h) * w[r - 1]
  {
    hide Sum;
  }

  /** The mass of a new segment is 1/lambda of all mass weighed by the newest density;
      every other run length keeps the rest of the mass that was one shorter. */
  lemma ForwardRecursion(p: Params, priorVar: Option<real>, xs: seq<real>, r: nat)
    requires p.lambda != 0.0 && xs != [] && r < |Forward(p, priorVar, xs)|
    ensures var f, before := Forward(p, priorVar, xs), Forward(p, priorVar, xs[..|xs| - 1]);
            if r == 0 then IsShare(f[0], p.lambda, Sum(ForwardWeights(p, priorVar, xs, before)))
            else r - 1 < |before| && IsRest(f[r], p.lambda, before[r - 1], BatchDensity(p, priorVar, xs, r - 1))
  {
    hide *;
    ForwardIsJoint(p, priorVar, xs);
    ForwardShrinks(p, priorVar, xs, r);
    var before := Forward(p, priorVar, xs[..|xs| - 1]);
    var w, f := ForwardWeights(p, priorVar, xs, before), Forward(p, priorVar, xs)[r];
    JointEntry(1.0 / p.lambda, w, p.maxRun, r);
    if r == 0 {
      ShareIs(f, p.lambda, Sum(w));
    } else {
      WeightAt(p, priorVar, xs, before, r - 1);
      RestIs(f, p.lambda, w[r - 1], before[r - 1], BatchDensity(p, priorVar, xs, r - 1));
    }
  }

  lemma WeightAt(p: Params, priorVar: Option<real>, xs: seq<real>, f: seq<real>, r: nat)
    requires xs != [] && r < |f|
    ensures ForwardWeights(p, priorVar, xs, f)[r] == f[r] * BatchDensity(p, priorVar, xs, r)
  {
    hide BatchDensity;
  }

  lemma ForwardIsJoint(p: Params, priorVar: Option<real>, xs: seq<real>)
    requires p.lambda != 0.0 && xs != []
    ensures Forward(p, priorVar, xs)
         == Take(Joint(1.0 / p.lambda, ForwardWeights(p, priorVar, xs, Forward(p, priorVar, xs[..|xs| - 1]))), p.maxRun)
  {
    hide Joint, Take, ForwardWeights;
  }

  /** The likelihood of the last r observations as one segment. */
  function Evidence(p: Params, priorVar: Option<real>, xs: seq<real>, r: nat): real
    requires r <= |xs|
  {
    if r == 0 then 1.0
    else Evidence(p, priorVar, xs[..|xs| - 1], r - 1) * BatchDensity(p, priorVar, xs, r - 1)
  }

  /** lambda to the r-th power of the probability that r bars pass without a change. */
  function Power(a: real, r: nat): real { if r == 0 then 1.0 else a * Power(a, r - 1) }

  lemma ForwardShrinks(p: Params, priorVar: Option<real>, xs: seq<real>, r: nat)
    requires p.lambda != 0.0 && xs != [] && r < |Forward(p, priorVar, xs)|
    ensures r - 1 < |Forward(p, priorVar, xs[..|xs| - 1])|
  {
    hide ForwardWeights;
  }

  /** What a run length weighs: the mass of the new segment when it began, times the
      chance that no change came since, times the likelihood of its observations. */
  lemma {:induction false} ForwardIsEvidence(p: Params, priorVar: Option<real>, xs: seq<real>, r: nat)
    requires p.lambda != 0.0 && r < |Forward(p, priorVar, xs)| && r <= |xs|
    requires |Forward(p, priorVar, xs[..|xs| - r])| > 0
    ensures IsEvidence(Forward(p, priorVar, xs)[r], Power(p.lambda, r), Forward(p, priorVar, xs[..|xs| - r])[0],
                    Power(p.lambda - 1.0, r), Evidence(p, priorVar, xs, r))
  {
    hide *;
    if r == 0 {
      assert xs[..|xs|] == xs;
      NewSegment(p, priorVar, xs, Forward(p, priorVar, xs)[0]);
    } else {
      var before := xs[..|xs| - 1];
      ForwardShrinks(p, priorVar, xs, r);
      ForwardRecursion(p, priorVar, xs, r);
      assert before[..|before| - (r - 1)] == xs[..|xs| - r];
      ForwardIsEvidence(p, priorVar, before, r - 1);
      EvidenceStep(p, priorVar, xs, r);
      Telescopes(p.lambda, Forward(p, priorVar, xs)[r], Forward(p, priorVar, before)[r - 1],
                 BatchDensity(p, priorVar, xs, r - 1), Power(p.lambda, r - 1), Power(p.lambda - 1.0, r - 1),
                 Evidence(p, priorVar, before, r - 1), Forward(p, priorVar, xs[..|xs| - r])[0],
                 Power(p.lambda, r), Power(p.lambda - 1.0, r), Evidence(p, priorVar, xs, r));
    }
  }

  /** f times lambda^r is the starting mass times (lambda - 1)^r times the likelihood. */
  predicate IsEvidence(f: real, lambdaPower: real, start: real, restPower: real, likelihood: real) {
    f * lambdaPower == start * (restPower * likelihood)
  }

  lemma NewSegment(p: Params, priorVar: Option<real>, xs: seq<real>, f: real)
    ensures IsEvidence(f, Power(p.lambda, 0), f, Power(p.lambda - 1.0, 0), Evidence(p, priorVar, xs, 0))
  {}

  lemma EvidenceStep(p: Params, priorVar: Option<real>, xs: seq<real>, r: nat)
    requires 0 < r <= |xs|
    ensures Evidence(p, priorVar, xs, r)
         == Evidence(p, priorVar, xs[..|xs| - 1], r - 1) * BatchDensity(p, priorVar, xs, r - 1)
    ensures Power(p.lambda, r) == p.lambda * Power(p.lambda, r - 1)
    ensures Power(p.lambda - 1.0, r) == (p.lambda - 1.0) * Power(p.lambda - 1.0, r - 1)
  {
    hide BatchDensity;
  }

  lemma Telescopes(k: real, f: real, g: real, d: real, kp: real, lp: real, e: real, m: real, kq: real, lq: real,
                   q: real)
    requires IsRest(f, k, g, d) && IsEvidence(g, kp, m, lp, e)
    requires kq == k * kp && lq == (k - 1.0) * lp && q == e * d
    ensures IsEvidence(f, kq, m, lq, q)
  {
    var l, gd, le, fk := k - 1.0, g * d, lp * e, f * k;
    assert f * kq == fk * kp;
    assert fk * kp == l * gd * kp == l * (gd * kp);
    assert gd * kp == g * kp * d;
    assert g * kp * d == m * le * d == m * (le * d);
    assert le * d == lp * q;
    assert l * (m * (lp * q)) == m * (l * lp * q);
  }

  // ----- The changepoint probability and the MAP run length ------------------

  lemma {:induction false} PrefixSum(f: seq<real>, n: nat)
    requires n <= |f| && forall r :: 0 <= r < |f| ==> f[r] >= 0.0
    ensures Sum(f[..n]) <= Sum(f)
  {
    if n == |f| {
      assert f[..n] == f;
    } else {
      PrefixSum(f[..|f| - 1], n);
      assert f[..|f| - 1][..n] == f[..n];
    }
  }

  lemma ShareOfTotal(h: real, total: real, part: real)
    requires h > 0.0 && 0.0 < part <= total
    ensures h * total / part >= h && h * total / total == h
  {
    var q := h * total / part;
    assert q * part == h * total;
    CancelMul(h, q, part) by { assert h * (total - part) >= 0.0; }
  }

  lemma FirstJoint(h: real, w: seq<real>)
    ensures Joint(h, w)[0] == h * Sum(w)
  {
    hide Sum, Grown;
  }

  lemma TruncationKeepsMass(h: real, w: seq<real>, n: nat)
    requires 0.0 < h <= 1.0 && Masses(w) && n >= 1
    ensures var part := Sum(Take(Joint(h, w), n)); 0.0 < part <= Sum(w) && (|w| + 1 <= n ==> part == Sum(w))
  {
    hide Joint;
    var j := Joint(h, w);
    JointMasses(h, w);
    JointSum(h, w);
    MassesSum(Take(j, n));
    if |j| > n { PrefixSum(j, n); }
  }

  lemma FirstShare(h: real, w: seq<real>, n: nat)
    requires 0.0 < h <= 1.0 && Masses(w) && n >= 1
    ensures var j, f := Joint(h, w), Take(Joint(h, w), n);
            && Sum(f) > 0.0 && f[0] / Sum(f) >= h && (|j| <= n ==> f[0] / Sum(f) == h)
  {
    hide Joint, Sum, Masses;
    TruncationKeepsMass(h, w, n);
    FirstJoint(h, w);
    var total, f := Sum(w), Take(Joint(h, w), n);
    var part := Sum(f);
    ShareOfTotal(h, total, part);
    assert f[0] == h * total;
  }

  /** P(r = 0) is exactly 1/lambda whatever the data until truncation starts, and
      at least 1/lambda from then on. */
  lemma ChangepointProbability(p: Params, priorVar: Option<real>, xs: seq<real>)
    requires Proper(p, priorVar) && xs != []
    ensures var post := Run(p, priorVar, xs).post;
            && post != [] && post[0] >= 1.0 / p.lambda
            && (|xs| + 1 <= p.maxRun ==> post[0] == 1.0 / p.lambda)
  {
    var prev := Forward(p, priorVar, xs[..|xs| - 1]);
    PosteriorIsNormalisedForward(p, priorVar, xs);
    PosteriorIsNormalisedForward(p, priorVar, xs[..|xs| - 1]);
    ForwardWeightsMasses(p, priorVar, xs, prev);
    HazardInUnit(p.lambda);
    hide Run, Sum, Joint, ForwardWeights, UpdateWeights, BatchStatistics;
    FirstShare(1.0 / p.lambda, ForwardWeights(p, priorVar, xs, prev), p.maxRun);
  }

  // ----- Where the bound is strict -------------------------------------------

  predicate AllPositive(f: seq<real>) { f != [] && forall r :: 0 <= r < |f| ==> f[r] > 0.0 }

  lemma GrownPositive(h: real, w: seq<real>)
    requires 0.0 < h < 1.0 && AllPositive(w)
    ensures AllPositive(Grown(h, w))
  {
    var g, k := Grown(h, w), 1.0 - h;
    forall r | 0 <= r < |g|
      ensures g[r] > 0.0
    {
      assert g[r] == k * w[r];
    }
  }

  lemma JointPositive(h: real, w: seq<real>)
    requires 0.0 < h < 1.0 && AllPositive(w)
    ensures AllPositive(Joint(h, w))
  {
    hide Sum, Grown;
    MassesSum(w);
    PositiveProduct(h, Sum(w));
    GrownPositive(h, w);
  }

  lemma ForwardWeightsPositive(p: Params, priorVar: Option<real>, xs: seq<real>, f: seq<real>)
    requires Proper(p, priorVar) && xs != [] && AllPositive(f)
    ensures AllPositive(ForwardWeights(p, priorVar, xs, f))
  {
    var w := ForwardWeights(p, priorVar, xs, f);
    hide BatchDensity;
    forall r | 0 <= r < |w|
      ensures w[r] > 0.0
    {
      BatchDensityPositive(p, priorVar, xs, r);
    }
  }

  lemma HazardInside(lambda: real)
    requires lambda > 1.0
    ensures 0.0 < 1.0 / lambda < 1.0
  {
    assert 1.0 / lambda * lambda == 1.0;
  }

  /** Every run length that is kept has positive mass. */
  lemma {:induction false} ForwardPositive(p: Params, priorVar: Option<real>, xs: seq<real>)
    requires Proper(p, priorVar) && p.lambda > 1.0
    ensures AllPositive(Forward(p, priorVar, xs))
  {
    hide Joint, ForwardWeights;
    if xs != [] {
      var prev := Forward(p, priorVar, xs[..|xs| - 1]);
      ForwardPositive(p, priorVar, xs[..|xs| - 1]);
      ForwardWeightsPositive(p, priorVar, xs, prev);
      HazardInside(p.lambda);
      JointPositive(1.0 / p.lambda, ForwardWeights(p, priorVar, xs, prev));
    }
  }

  lemma PrefixSumStrict(f: seq<real>, n: nat)
    requires n < |f| && AllPositive(f)
    ensures Sum(f[..n]) < Sum(f)
  {
    var m := |f| - 1;
    PrefixSum(f[..m], n);
    assert f[..m][..n] == f[..n];
  }

  lemma ExcessShare(h: real, total: real, part: real)
    requires h > 0.0 && 0.0 < part < total
    ensures h * total / part > h
  {
    var q := h * total / part;
    assert q * part == h * total;
    assert h * (total - part) > 0.0;
    CancelMul(h, q, part);
    assert q != h;
  }

  lemma TruncationLosesMass(h: real, w: seq<real>, n: nat)
    requires 0.0 < h < 1.0 && AllPositive(w) && 1 <= n <= |w|
    ensures 0.0 < Sum(Take(Joint(h, w), n)) < Sum(w)
  {
    hide Joint;
    var j := Joint(h, w);
    JointPositive(h, w);
    JointSum(h, w);
    MassesSum(j[..n]);
    PrefixSumStrict(j, n);
  }

  lemma StrictShare(h: real, w: seq<real>, n: nat)
    requires 0.0 < h < 1.0 && AllPositive(w) && 1 <= n <= |w|
    ensures var f := Take(Joint(h, w), n); Sum(f) > 0.0 && f[0] / Sum(f) > h
  {
    hide Joint, Sum, AllPositive;
    TruncationLosesMass(h, w, n);
    FirstJoint(h, w);
    var total, f := Sum(w), Take(Joint(h, w), n);
    var part := Sum(f);
    ExcessShare(h, total, part);
    assert f[0] == h * total;
  }

  lemma FirstIsAtMostOne(post: seq<real>)
    requires post != [] && Sum(post) == 1.0 && forall r :: 0 <= r < |post| ==> post[r] >= 0.0
    ensures post[0] <= 1.0
  {
    PrefixSum(post, 1);
    assert post[..1][..0] == [] && Sum(post[..1]) == post[0];
  }

  lemma TruncatedExceeds(p: Params, priorVar: Option<real>, xs: seq<real>)
    requires Proper(p, priorVar) && p.lambda > 1.0 && xs != [] && |xs| + 1 > p.maxRun
    ensures var post := Run(p, priorVar, xs).post; post != [] && post[0] > 1.0 / p.lambda
  {
    var before := xs[..|xs| - 1];
    var prev := Forward(p, priorVar, before);
    PosteriorIsNormalisedForward(p, priorVar, xs);
    PosteriorIsNormalisedForward(p, priorVar, before);
    ForwardPositive(p, priorVar, before);
    ForwardWeightsPositive(p, priorVar, xs, prev);
    HazardInside(p.lambda);
    hide Run, Sum, Joint, ForwardWeights, UpdateWeights, BatchStatistics, AllPositive;
    StrictShare(1.0 / p.lambda, ForwardWeights(p, priorVar, xs, prev), p.maxRun);
  }

  /** P(r = 0) exceeds 1/lambda exactly when run lengths have been truncated (and
      lambda is above 1, where it is not already certain). */
  lemma ChangepointExceedsIffTruncated(p: Params, priorVar: Option<real>, xs: seq<real>)
    requires Proper(p, priorVar) && xs != []
    ensures var post := Run(p, priorVar, xs).post;
            post != [] && (post[0] > 1.0 / p.lambda <==> p.lambda > 1.0 && |xs| + 1 > p.maxRun)
  {
    hide Run;
    ChangepointProbability(p, priorVar, xs);
    if |xs| + 1 > p.maxRun {
      if p.lambda > 1.0 {
        TruncatedExceeds(p, priorVar, xs);
      } else {
        PosteriorIsDistribution(p, priorVar, xs, Run(p, priorVar, xs).post);
        FirstIsAtMostOne(Run(p, priorVar, xs).post);
      }
    }
  }

  lemma {:induction false} BoundedSum(f: seq<real>, b: real)
    requires forall r :: 0 <= r < |f| ==> f[r] <= b
    ensures Sum(f) <= |f| as real * b
  {
    if f != [] {
      BoundedSum(f[..|f| - 1], b);
      assert |f| as real * b == (|f| - 1) as real * b + b;
    }
  }

  lemma DivNonnegative(f: seq<real>, k: real)
    requires k > 0.0 && forall r :: 0 <= r < |f| ==> f[r] >= 0.0
    ensures forall r :: 0 <= r < |f| ==> Div(f, k)[r] >= 0.0
  {
    forall r | 0 <= r < |f|
      ensures Div(f, k)[r] >= 0.0
    {
      DivMonotone(0.0, f[r], k);
    }
  }

  lemma NormalisedMasses(f: seq<real>)
    requires Masses(f)
    ensures Sum(f) > 0.0 && Sum(Normal(f)) == 1.0
    ensures forall r :: 0 <= r < |f| ==> Normal(f)[r] >= 0.0
  {
    hide Sum, Div;
    MassesSum(f);
    SumDiv(f, Sum(f));
    DivSelf(Sum(f));
    DivNonnegative(f, Sum(f));
  }

  /** The posterior is a probability distribution after every update. */
  lemma PosteriorIsDistribution(p: Params, priorVar: Option<real>, xs: seq<real>, post: seq<real>)
    requires Proper(p, priorVar) && post == Run(p, priorVar, xs).post
    ensures Sum(post) == 1.0 && forall r :: 0 <= r < |post| ==> post[r] >= 0.0
  {
    PosteriorIsNormalisedForward(p, priorVar, xs);
    hide Run, Forward, Sum, UpdateWeights, BatchStatistics, Masses;
    NormalisedMasses(Forward(p, priorVar, xs));
  }

  lemma FewShares(n: real, lambda: real, h: real)
    requires 0.0 < n < lambda && h * lambda == 1.0 && h > 0.0
    ensures n * h < 1.0
  {
    var a, b := n * h, lambda * h;
    assert b == 1.0;
    assert (lambda - n) * h == b - a;
    assert (lambda - n) * h > 0.0;
    assert a < b;
  }

  /** A distribution whose first entry is 1/lambda, on fewer than lambda run
      lengths, has its maximum elsewhere. */
  lemma Pigeonhole(post: seq<real>, lambda: real)
    requires post != [] && |post| as real < lambda && Sum(post) == 1.0 && post[0] == 1.0 / lambda
    ensures ArgMax(post) >= 1
  {
    hide Sum;
    var h := post[0];
    MulDiv(1.0, lambda);
    FewShares(|post| as real, lambda, h);
    if ArgMax(post) == 0 {
      BoundedSum(post, h);
      assert false;
    }
  }

  lemma MapIsArgMax(p: Params, s: State, x: real)
    requires p.lambda != 0.0 && |s.post| == |s.means| == |s.counts|
    ensures Next(p, s, x).mapRun == ArgMax(Next(p, s, x).post)
  {}

  /** By pigeonhole, the MAP run length is at least 1 at every untruncated step
      t with 1 <= t < lambda - 1. */
  lemma MapRunIsPositiveEarly(p: Params, priorVar: Option<real>, xs: seq<real>)
    requires Proper(p, priorVar) && xs != [] && |xs| + 1 <= p.maxRun && (|xs| + 1) as real < p.lambda
    ensures Run(p, priorVar, xs).mapRun >= 1
  {
    var s := Run(p, priorVar, xs);
    MapIsArgMaxInRun(p, priorVar, xs);
    hide Run, Sum, UpdateWeights, Forward, BatchStatistics, Masses;
    PosteriorIsNormalisedForward(p, priorVar, xs);
    ChangepointProbability(p, priorVar, xs);
    PosteriorIsDistribution(p, priorVar, xs, s.post);
    Pigeonhole(s.post, p.lambda);
  }

  /** The gate is silent until the warm-up bars have been seen, and at least one
      bar where no prior variance is given; from then on it never goes silent. */
  lemma GateOpensAfterWarmup(p: Params, priorVar: Option<real>, xs: seq<real>)
    requires p.lambda != 0.0
    ensures WarmedUp(p, Run(p, priorVar, xs)) <==> |xs| >= p.warmupBars && (priorVar.Some? || |xs| >= 1)
  {
    hide Run, BatchVar;
    WarmupIsBatch(p, priorVar, xs);
  }

  /** No changepoint at run length 0 is flagged at an untruncated step t with
      1 <= t < lambda - 1: with the default limit of 1 (core/bocpd_gate.py:75) the
      flag then means a MAP run length of exactly 1. */
  lemma EarlyBarsAreNotChangepoints(p: Params, priorVar: Option<real>, xs: seq<real>)
    requires Proper(p, priorVar) && xs != [] && |xs| + 1 <= p.maxRun && (|xs| + 1) as real < p.lambda
    ensures var s := Run(p, priorVar, xs);
            && (Changepoint(p, s) <==> WarmedUp(p, s) && 1 <= s.mapRun <= p.cpMaxRun)
            && (Transition(p, s) <==> WarmedUp(p, s) && 1 <= s.mapRun <= p.transitionMaxRun && p.cpMaxRun < s.mapRun)
  {
    hide Run;
    MapRunIsPositiveEarly(p, priorVar, xs);
  }

  // ----- The flags against the forward recursion -------------------------------

  lemma {:induction false} MapIsArgMaxInRun(p: Params, priorVar: Option<real>, xs: seq<real>)
    requires p.lambda != 0.0
    ensures var s := Run(p, priorVar, xs); s.mapRun == ArgMax(s.post)
  {
    if xs != [] {
      hide Next, ArgMax;
      MapIsArgMax(p, Run(p, priorVar, xs[..|xs| - 1]), xs[|xs| - 1]);
    }
  }

  lemma DivOrder(a: real, b: real, k: real)
    requires k > 0.0
    ensures a / k <= b / k <==> a <= b
  {
    if a <= b {
      DivMonotone(a, b, k);
    } else if a / k <= b / k {
      MulMonotone(a / k, b / k, k);
      MulDiv(a, k);
      MulDiv(b, k);
    }
  }

  /** Dividing by a positive total leaves the first maximum where it is. */
  lemma ArgMaxOfNormal(f: seq<real>)
    requires f != [] && Sum(f) > 0.0
    ensures ArgMax(Normal(f)) == ArgMax(f)
  {
    var k, n := Sum(f), Normal(f);
    var a, b := ArgMax(n), ArgMax(f);
    hide Sum, ArgMax;
    assert n[a] == f[a] / k && n[b] == f[b] / k;
    DivOrder(f[a], f[b], k);
    DivOrder(f[b], f[a], k);
  }

  /** A bar is flagged as a changepoint exactly when the warm-up bars have been seen
      and the plain forward recursion on the batch statistics peaks at a run
      length up to the changepoint limit; as a transition exactly when it peaks
      past that limit and within the transition one. */
  lemma FlagsFollowForward(p: Params, priorVar: Option<real>, xs: seq<real>)
    requires Proper(p, priorVar)
    ensures var s, f := Run(p, priorVar, xs), Forward(p, priorVar, xs);
            var warm := |xs| >= p.warmupBars && (priorVar.Some? || |xs| >= 1);
            && (Changepoint(p, s) <==> warm && PeaksWithin(f, p.cpMaxRun))
            && (Transition(p, s) <==> warm && !PeaksWithin(f, p.cpMaxRun) && PeaksWithin(f, p.transitionMaxRun))
  {
    hide Run, Forward, Sum, Normal, WarmedUp, BatchStatistics, PeaksWithin, UpdateWeights, ArgMax;
    var s, f := Run(p, priorVar, xs), Forward(p, priorVar, xs);
    GateOpensAfterWarmup(p, priorVar, xs);
    MapIsArgMaxInRun(p, priorVar, xs);
    PosteriorIsNormalisedForward(p, priorVar, xs);
    ArgMaxOfNormal(f);
    PeaksWithinIff(f, p.cpMaxRun);
    PeaksWithinIff(f, p.transitionMaxRun);
  }
}
