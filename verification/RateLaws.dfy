/** When an entry is made, counted on the stamps of every earlier one: the pruned
    buckets decide as the full history would. */
module RateLaws {
  import opened Numbers
  import opened RateLimit

  /** How many of the stamps are at or after a time. */
  function Recent(ts: seq<int>, since: int): nat { |set i: nat | i < |ts| && ts[i] >= since| }

  lemma {:induction false} CountsRecent(ts: seq<int>, since: int)
    ensures |Since(ts, since)| == Recent(ts, since)
  {
    if ts != [] {
      CountsRecent(ts[..|ts| - 1], since);
      RecentSnoc(ts, since);
    }
  }

  lemma RecentSnoc(ts: seq<int>, since: int)
    requires ts != []
    ensures Recent(ts, since) == Recent(ts[..|ts| - 1], since) + if ts[|ts| - 1] >= since then 1 else 0
  {
    var n := |ts| - 1;
    var all := set i: nat | i < |ts| && ts[i] >= since;
    var before := set i: nat | i < n && ts[..n][i] >= since;
    assert forall i: nat :: i < n ==> ts[..n][i] == ts[i];
    if ts[n] >= since { assert all == before + {n}; } else { assert all == before; }
  }

  // ----- The gate ---------------------------------------------------------------

  function CapOf(configured: nat): nat { if configured > 0 then configured else 99 }

  /** Which limit blocks: too many entries in the last hour, in the last ten minutes,
      a losing streak, a cooldown, in that order. */
  lemma BlockedBy(l: Limits, hour: seq<int>, ten: seq<int>, now: int, now': int, losses: nat, cooling: bool)
    ensures var hourFull, tenFull := Recent(hour, now - 3600) >= CapOf(l.maxHour),
                                     l.maxTen > 0 && Recent(ten, now' - 600) >= l.maxTen;
            var losing := losses >= CapOf(l.maxConsecutive);
            match Gate(l, hour, ten, now, now', losses, cooling)
            case Some(MaxPerHour) => hourFull
            case Some(MaxPerTenMinutes) => !hourFull && tenFull
            case Some(MaxConsecutiveLosses) => !hourFull && !tenFull && losing
            case Some(Cooldown) => !hourFull && !tenFull && !losing && cooling
            case None => !hourFull && !tenFull && !losing && !cooling
  {
    hide Since, Recent;
    CountsRecent(hour, now - 3600);
    CountsRecent(ten, now' - 600);
  }

  /** Fewer than cap of the entries are recent; a cap above the number of stamps kept
      is never reached. */
  predicate HasRoom(entries: seq<int>, since: int, cap: nat) { cap > 20 || Recent(entries, since) < cap }

  /** Fewer than cap stamps of a sorted list are recent exactly when the cap-th newest
      is not. */
  lemma FewRecentIff(ts: seq<int>, since: int, cap: nat)
    requires Sorted(ts) && cap > 0
    ensures |Since(ts, since)| < cap <==> |ts| < cap || ts[|ts| - cap] < since
  {
    SinceOfSorted(ts, since);
  }

  /** A bucket has room exactly where the full history that it covers has. */
  lemma BucketDecides(bucket: seq<int>, h: seq<int>, horizon: int, since: int, cap: nat)
    requires Sorted(h) && Covers(bucket, h, horizon) && horizon <= since && cap > 0
    ensures |Since(bucket, since)| < cap <==> HasRoom(h, since, cap)
  {
    hide Since, Recent;
    if cap > 20 {
      SinceShrinks(bucket, since);
    } else {
      CountsRecent(h, since);
      SortedSuffix(h, |h| - |bucket|);
      FewRecentIff(h, since, cap);
      FewRecentIff(bucket, since, cap);
      if |bucket| >= cap { SuffixAt(bucket, h, |h| - cap); }
    }
  }

  /** With h the entries made so far: the order is placed, they leave room in the last
      hour and in the last ten minutes, the losing streak is below its cap and no
      cooldown is on. */
  predicate MayEnter(l: Limits, h: seq<int>, a: Attempt) {
    && a.placed && HasRoom(h, a.gate - 3600, CapOf(l.maxHour))
    && (l.maxTen > 0 ==> HasRoom(h, a.gate' - 600, l.maxTen))
    && a.losses < CapOf(l.maxConsecutive) && !a.cooling
  }

  lemma GateHasRoom(l: Limits, b: Book, h: seq<int>, a: Attempt, hour: nat, ten: nat)
    requires hour == |Since(Bucket(b.hour, a.symbol), a.gate - HOUR)|
    requires ten == |Since(Bucket(b.ten, a.symbol), a.gate' - TEN_MINUTES)|
    requires hour < CapOf(l.maxHour) <==> HasRoom(h, a.gate - 3600, CapOf(l.maxHour))
    requires l.maxTen > 0 ==> (ten < l.maxTen <==> HasRoom(h, a.gate' - 600, l.maxTen))
    ensures Enters(l, b, a) <==> MayEnter(l, h, a)
  {
    hide Since, HasRoom, Bucket;
  }

  /** In every run the next attempt on a symbol enters exactly where the symbol's full
      history, of which nothing is pruned, lets it. */
  lemma EntersByHistory(l: Limits, run: seq<Attempt>, a: Attempt)
    requires ClockedRun(run + [a])
    ensures Enters(l, Run(l, run), a) <==> MayEnter(l, Entries(l, run, a.symbol), a)
  {
    hide Since, HasRoom, Bucket, Run, Entries, Sorted, Covers, ClockedRun, Enters, MayEnter, CapOf;
    var b, h := Run(l, run), Entries(l, run, a.symbol);
    var hour, ten := Bucket(b.hour, a.symbol), Bucket(b.ten, a.symbol);
    BeforeAttempt(l, run, a);
    CapIsPositive(l.maxHour);
    BucketDecides(hour, h, a.gate - 2 * HOUR, a.gate - HOUR, CapOf(l.maxHour));
    if l.maxTen > 0 { BucketDecides(ten, h, a.gate - TEN_MINUTES, a.gate' - TEN_MINUTES, l.maxTen); }
    GateHasRoom(l, b, h, a, |Since(hour, a.gate - HOUR)|, |Since(ten, a.gate' - TEN_MINUTES)|);
  }

  lemma CapIsPositive(configured: nat)
    ensures CapOf(configured) > 0
  {}

  /** Before an attempt both buckets cover the symbol's history, up to their horizons. */
  lemma BeforeAttempt(l: Limits, run: seq<Attempt>, a: Attempt)
    requires ClockedRun(run + [a])
    ensures var b, h := Run(l, run), Entries(l, run, a.symbol);
            && Sorted(h) && Covers(Bucket(b.hour, a.symbol), h, a.gate - 2 * HOUR)
            && Covers(Bucket(b.ten, a.symbol), h, a.gate - TEN_MINUTES) && a.gate <= a.gate'
  {
    var all := run + [a];
    assert all[|run|] == a && forall i :: 0 <= i < |run| ==> all[i] == run[i];
    RunKeepsInv(l, run, a.symbol);
    if LastSeen(run, a.symbol).Some? { SeenBefore(run, a.symbol, a); }
    hide Run, Entries, LastSeen, ClockedRun;
  }

  // ----- Recording ----------------------------------------------------------------

  /** The newest stamps that are not older than the cutoff, at most twenty of them. */
  function Newest(ts: seq<int>, cutoff: int): seq<int> {
    var kept := if Recent(ts, cutoff) < 20 then Recent(ts, cutoff) else 20;
    if kept <= |ts| then ts[|ts| - kept..] else ts
  }

  lemma RecordedIsNewest(bucket: seq<int>, stamp: int, cutoff: int)
    requires Sorted(bucket + [stamp])
    ensures Recorded(bucket, stamp, cutoff) == Newest(bucket + [stamp], cutoff)
  {
    var ts := bucket + [stamp];
    CountsRecent(ts, cutoff);
    SinceOfSorted(ts, cutoff);
    hide Recent, Since, Sorted;
  }

  /** An entry's stamp joins both buckets of its symbol: the hourly one keeps two hours,
      the other ten minutes.  An attempt that does not enter changes nothing. */
  lemma EntryIsRecorded(l: Limits, b: Book, a: Attempt)
    requires Sorted(Bucket(b.hour, a.symbol) + [a.stamp]) && Sorted(Bucket(b.ten, a.symbol) + [a.stamp])
    ensures var n, hour, ten := Step(l, b, a), Bucket(b.hour, a.symbol), Bucket(b.ten, a.symbol);
            if Enters(l, b, a)
            then && Bucket(n.hour, a.symbol) == Newest(hour + [a.stamp], a.hourNow - 7200)
                 && Bucket(n.ten, a.symbol) == Newest(ten + [a.stamp], a.tenNow - 600)
            else n == b
  {
    hide Enters, Recorded, Newest, Sorted, Bucket, Step;
    Written(l, b, a);
    RecordedIsNewest(Bucket(b.hour, a.symbol), a.stamp, a.hourNow - 7200);
    RecordedIsNewest(Bucket(b.ten, a.symbol), a.stamp, a.tenNow - 600);
  }

  lemma Written(l: Limits, b: Book, a: Attempt)
    ensures var n, hour, ten := Step(l, b, a), Bucket(b.hour, a.symbol), Bucket(b.ten, a.symbol);
            if Enters(l, b, a)
            then && Bucket(n.hour, a.symbol) == Recorded(hour, a.stamp, a.hourNow - 7200)
                 && Bucket(n.ten, a.symbol) == Recorded(ten, a.stamp, a.tenNow - 600)
            else n == b
  {
    hide Enters, Recorded;
  }

  /** How many stamps a window holds. */
  function Inside(ts: seq<int>, lo: int, hi: int): nat { |set i: nat | i < |ts| && lo <= ts[i] <= hi| }

  lemma {:induction false} CountsWindow(ts: seq<int>, lo: int, hi: int)
    ensures CountIn(ts, lo, hi) == Inside(ts, lo, hi)
  {
    if ts != [] {
      CountsWindow(ts[..|ts| - 1], lo, hi);
      InsideSnoc(ts, lo, hi);
    }
  }

  lemma InsideSnoc(ts: seq<int>, lo: int, hi: int)
    requires ts != []
    ensures Inside(ts, lo, hi) == Inside(ts[..|ts| - 1], lo, hi) + if lo <= ts[|ts| - 1] <= hi then 1 else 0
  {
    var n := |ts| - 1;
    var all := set i: nat | i < |ts| && lo <= ts[i] <= hi;
    var before := set i: nat | i < n && lo <= ts[..n][i] <= hi;
    assert forall i: nat :: i < n ==> ts[..n][i] == ts[i];
    if lo <= ts[n] <= hi { assert all == before + {n}; } else { assert all == before; }
  }
}
