/** What the detector reports, and how it starts afresh where no run length explains an
    observation. */
module BocpdLaws {
  import opened Numbers
  import opened Bocpd
  import opened BocpdProofs

  /** The reported changepoint probability is the posterior's first entry, 0 before the
      first observation or where none is kept; the reported run length is its first
      largest one, 0 where none is kept. */
  lemma ReportsPosterior(p: Params, priorVar: Option<real>, xs: seq<real>)
    requires p.lambda != 0.0
    ensures var s := Run(p, priorVar, xs);
            && s.cpProb == (if xs == [] || s.post == [] then 0.0 else s.post[0]) && s.steps == |xs|
            && (if s.post == [] then s.mapRun == 0
                else s.mapRun < |s.post| && IsFirstLargest(s.post, s.mapRun))
  {
    hide Recursed, Warm, Renormalised;
    var s := Run(p, priorVar, xs);
    assert s.mapRun == ArgMax(s.post);
    StepsAre(p, priorVar, xs);
    hide Run, Sum;
  }

  predicate IsFirstLargest(post: seq<real>, k: nat)
    requires k < |post|
  {
    forall i :: 0 <= i < |post| ==> post[i] <= post[k] && (i < k ==> post[i] < post[k])
  }

  lemma {:induction false} StepsAre(p: Params, priorVar: Option<real>, xs: seq<real>)
    requires p.lambda != 0.0
    ensures Run(p, priorVar, xs).steps == |xs|
  {
    hide ArgMax, Recursed, Kept;
    if xs != [] { StepsAre(p, priorVar, xs[..|xs| - 1]); }
  }

  /** No stored run length gives the observation any density. */
  predicate Unexplained(p: Params, v: real, x: real, means: seq<real>, counts: seq<nat>)
    requires |means| == |counts|
  {
    forall r :: 0 <= r < |means| ==> p.pdf(x, means[r], Spread(v, counts[r])) == 0.0
  }

  /** All of xs after the first is 0. */
  predicate ZeroAfterFirst(xs: seq<real>) { forall i :: 1 <= i < |xs| ==> xs[i] == 0.0 }

  lemma {:induction false} SumOfFirst(xs: seq<real>)
    requires xs != [] && ZeroAfterFirst(xs)
    ensures Sum(xs) == xs[0]
  {
    if |xs| > 1 { SumOfFirst(xs[..|xs| - 1]); } else { assert Sum(xs[..0]) == 0.0; }
  }

  lemma {:induction false} SumOfZeros(xs: seq<real>)
    requires forall i :: 0 <= i < |xs| ==> xs[i] == 0.0
    ensures Sum(xs) == 0.0
  {
    if xs != [] { SumOfZeros(xs[..|xs| - 1]); }
  }

  lemma NoWeight(p: Params, v: real, x: real, post: seq<real>, means: seq<real>, counts: seq<nat>)
    requires |post| == |means| == |counts| && Unexplained(p, v, x, means, counts)
    ensures Sum(Weights(p, v, x, post, means, counts)) == 0.0
  {
    var w := Weights(p, v, x, post, means, counts);
    forall r | 0 <= r < |w| ensures w[r] == 0.0 {
      SpreadIs(v, counts[r]);
      assert Density(p, v, x, means[r], counts[r]) == 0.0 by { hide Spread, PredictiveVar; }
    }
    SumOfZeros(w);
  }

  /** A list of one 1 and zeros is kept by truncation. */
  lemma FreshIsKept(n: nat, maxRun: nat)
    requires maxRun >= 1
    ensures var post := Truncated([1.0] + Zeros(n), maxRun);
            |post| == (if n + 1 <= maxRun then n + 1 else maxRun) && post[0] == 1.0 && ZeroAfterFirst(post)
  {
    var xs := [1.0] + Zeros(n);
    if |xs| > maxRun {
      SumOfFirst(xs[..maxRun]);
      assert forall i :: 0 <= i < maxRun ==> xs[..maxRun][i] / 1.0 == xs[..maxRun][i];
    }
  }

  lemma FirstIsLargest(post: seq<real>)
    requires post != [] && post[0] == 1.0 && ZeroAfterFirst(post)
    ensures ArgMax(post) == 0
  {
    assert post[0] <= post[ArgMax(post)];
  }

  /** An observation that no run length explains starts afresh: all mass on a new segment
      of that one observation, whose mean is half of it. */
  lemma ResetStartsAfresh(p: Params, s: State, x: real)
    requires p.lambda != 0.0 && p.maxRun >= 1 && |s.post| == |s.means| == |s.counts|
    requires Unexplained(p, Next(p, s, x).variance, x, s.means, s.counts)
    ensures var t, n := Next(p, s, x), if |s.post| < p.maxRun then |s.post| + 1 else p.maxRun;
            && |t.post| == |t.means| == |t.counts| == n && t.cpProb == 1.0 && t.mapRun == 0
            && t.post[0] == 1.0 && t.means[0] * 2.0 == x && t.counts[0] == 1
            && ZeroAfterFirst(t.post) && ZeroAfterFirst(t.means) && forall i :: 1 <= i < n ==> t.counts[i] == 0
  {
    var v, n := Warm(p, s, x).variance, |s.post|;
    NoWeight(p, v, x, s.post, s.means, s.counts);
    FreshIsKept(n, p.maxRun);
    hide Warm, Weights, Sum, Truncated, Unexplained, ArgMax;
    var t := Next(p, s, x);
    assert t.post == Truncated([1.0] + Zeros(n), p.maxRun);
    FirstIsLargest(t.post);
  }
}
