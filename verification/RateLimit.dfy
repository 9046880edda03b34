/** The fast layer's per-symbol entry limits: the gate of
    core/fast_entry_executor.py and the bookkeeping of core/fast_signal_cache.py.
    Times are integer seconds (any fixed unit would do). */
module RateLimit {
  import opened Numbers

  const HOUR := 3600
  const TEN_MINUTES := 600
  const KEEP := 20

  /** Raw settings; 0 means "not configured", as `int(x or 99)` reads it. */
  datatype Limits = Limits(maxHour: nat, maxTen: nat, maxConsecutive: nat)

  function OrDefault(n: nat): nat { if n == 0 then 99 else n }

  /** The entries at or after `cutoff`, in order. */
  function Since(ts: seq<int>, cutoff: int): seq<int> {
    if ts == [] then []
    else
      var n := |ts| - 1;
      if ts[n] >= cutoff then Since(ts[..n], cutoff) + [ts[n]] else Since(ts[..n], cutoff)
  }

  /** ts[-n:] */
  function Last(ts: seq<int>, n: nat): seq<int> { if |ts| > n then ts[|ts| - n..] else ts }

  function Bucket(m: map<string, seq<int>>, symbol: string): seq<int> {
    if symbol in m then m[symbol] else []
  }

  /** One bucket after an entry stamped `stamp` is recorded and the bucket pruned. */
  function Recorded(ts: seq<int>, stamp: int, cutoff: int): seq<int> { Last(Since(ts + [stamp], cutoff), KEEP) }

  datatype Block = MaxPerHour | MaxPerTenMinutes | MaxConsecutiveLosses | Cooldown

  /** The first limit that blocks an entry, if any.  The two windows are counted
      at two successive clock readings. */
  function Gate(l: Limits, hour: seq<int>, ten: seq<int>, now: int, now': int, losses: nat, cooling: bool)
    : Option<Block>
  {
    if |Since(hour, now - HOUR)| >= OrDefault(l.maxHour) then Some(MaxPerHour)
    else if l.maxTen != 0 && |Since(ten, now' - TEN_MINUTES)| >= l.maxTen then Some(MaxPerTenMinutes)
    else if losses >= OrDefault(l.maxConsecutive) then Some(MaxConsecutiveLosses)
    else if cooling then Some(Cooldown)
    else None
  }

  /** The trades_hour and trades_10min dictionaries of fast_state.json. */
  class FastState {
    var tradesHour: map<string, seq<int>>
    var trades10min: map<string, seq<int>>

    constructor ()
      ensures tradesHour == map[] && trades10min == map[]
    {
      tradesHour, trades10min := map[], map[];
    }

    method CountSince(bucket: seq<int>, cutoff: int) returns (n: nat)
      ensures n == |Since(bucket, cutoff)|
    {
      n := 0;
      for i := 0 to |bucket|
        invariant n == |Since(bucket[..i], cutoff)|
      {
        assert bucket[..i + 1][..i] == bucket[..i];
        if bucket[i] >= cutoff { n := n + 1; }
      }
      assert bucket[..|bucket|] == bucket;
    }

    method RateLimitsOk(l: Limits, symbol: string, now: int, now': int, losses: nat, cooling: bool)
      returns (blocked: Option<Block>)
      ensures blocked == Gate(l, Bucket(tradesHour, symbol), Bucket(trades10min, symbol), now, now', losses, cooling)
    {
      var n := CountSince(Bucket(tradesHour, symbol), now - HOUR);
      if n >= OrDefault(l.maxHour) { return Some(MaxPerHour); }
      if l.maxTen != 0 {
        n := CountSince(Bucket(trades10min, symbol), now' - TEN_MINUTES);
        if n >= l.maxTen { return Some(MaxPerTenMinutes); }
      }
      if losses >= OrDefault(l.maxConsecutive) { return Some(MaxConsecutiveLosses); }
      if cooling { return Some(Cooldown); }
      return None;
    }

    /** Stamp an entry in both windows.  The stamp and the two pruning cutoffs
        come from three successive clock readings. */
    method RecordTradeEntry(symbol: string, stamp: int, hourNow: int, tenNow: int)
      modifies this
      ensures tradesHour
           == old(tradesHour)[symbol := Recorded(Bucket(old(tradesHour), symbol), stamp, hourNow - 2 * HOUR)]
      ensures trades10min
           == old(trades10min)[symbol := Recorded(Bucket(old(trades10min), symbol), stamp, tenNow - TEN_MINUTES)]
    {
      var times := Bucket(tradesHour, symbol) + [stamp];
      times := Since(times, hourNow - 2 * HOUR);
      tradesHour := tradesHour[symbol := Last(times, KEEP)];
      times := Bucket(trades10min, symbol) + [stamp];
      times := Since(times, tenNow - TEN_MINUTES);
      trades10min := trades10min[symbol := Last(times, KEEP)];
    }

    /** One attempt: gate, then (if the order is placed) record the entry. */
    method Execute(l: Limits, a: Attempt) returns (entered: bool)
      modifies this
      ensures entered == Enters(l, old(Book(tradesHour, trades10min)), a)
      ensures Book(tradesHour, trades10min) == Step(l, old(Book(tradesHour, trades10min)), a)
    {
      var blocked := RateLimitsOk(l, a.symbol, a.gate, a.gate', a.losses, a.cooling);
      entered := blocked.None? && a.placed;
      if entered {
        RecordTradeEntry(a.symbol, a.stamp, a.hourNow, a.tenNow);
      }
    }
  }

  // ----- Runs of gate-then-record attempts -----------------------------------

  /** One serialised attempt: two gate readings, then, if the order was placed,
      the stamp and two pruning readings. */
  datatype Attempt = Attempt(
    symbol: string, gate: int, gate': int, placed: bool, stamp: int, hourNow: int, tenNow: int,
    losses: nat, cooling: bool)

  datatype Book = Book(hour: map<string, seq<int>>, ten: map<string, seq<int>>)

  predicate Enters(l: Limits, b: Book, a: Attempt) {
    Gate(l, Bucket(b.hour, a.symbol), Bucket(b.ten, a.symbol), a.gate, a.gate', a.losses, a.cooling).None? && a.placed
  }

  function Step(l: Limits, b: Book, a: Attempt): Book {
    if !Enters(l, b, a) then b
    else Book(
      b.hour[a.symbol := Recorded(Bucket(b.hour, a.symbol), a.stamp, a.hourNow - 2 * HOUR)],
      b.ten[a.symbol := Recorded(Bucket(b.ten, a.symbol), a.stamp, a.tenNow - TEN_MINUTES)])
  }

  function Run(l: Limits, run: seq<Attempt>): Book {
    if run == [] then Book(map[], map[]) else Step(l, Run(l, run[..|run| - 1]), run[|run| - 1])
  }

  /** Every entry of a symbol in the run, by its stamp: nothing is ever pruned here. */
  function Entries(l: Limits, run: seq<Attempt>, symbol: string): seq<int> {
    if run == [] then []
    else
      var n := |run| - 1;
      var earlier := Entries(l, run[..n], symbol);
      if run[n].symbol == symbol && Enters(l, Run(l, run[..n]), run[n]) then earlier + [run[n].stamp] else earlier
  }

  /** Clock readings never go back within an attempt. */
  predicate Clocked(a: Attempt) { a.gate <= a.gate' <= a.stamp <= a.hourNow <= a.tenNow }

  /** Attempts on one symbol are serialised; those on different symbols may overlap
      in time in any way. */
  predicate ClockedRun(run: seq<Attempt>) {
    && (forall i :: 0 <= i < |run| ==> Clocked(run[i]))
    && (forall i, j :: 0 <= i < j < |run| && run[i].symbol == run[j].symbol ==> run[i].tenNow <= run[j].gate)
  }

  function CountIn(ts: seq<int>, lo: int, hi: int): nat {
    if ts == [] then 0
    else CountIn(ts[..|ts| - 1], lo, hi) + if lo <= ts[|ts| - 1] <= hi then 1 else 0
  }

  // ----- Buckets are suffixes of the full history ----------------------------

  predicate Sorted(ts: seq<int>) { forall i, j :: 0 <= i < j < |ts| ==> ts[i] <= ts[j] }

  predicate Suffix(bucket: seq<int>, h: seq<int>) { |bucket| <= |h| && bucket == h[|h| - |bucket|..] }

  /** `bucket` is the newest part of `h`; what it lacks is older than `horizon`
      or not among the newest KEEP entries. */
  predicate Covers(bucket: seq<int>, h: seq<int>, horizon: int) {
    && Suffix(bucket, h) && |bucket| <= KEEP
    && forall j :: 0 <= j < |h| - |bucket| ==> h[j] < horizon || |h| - j > KEEP
  }

  lemma {:induction false} SinceOfOld(ts: seq<int>, cutoff: int)
    requires forall j :: 0 <= j < |ts| ==> ts[j] < cutoff
    ensures Since(ts, cutoff) == []
  {
    if ts != [] { SinceOfOld(ts[..|ts| - 1], cutoff); }
  }

  lemma {:induction false} SinceOfSorted(ts: seq<int>, cutoff: int)
    requires Sorted(ts)
    ensures var s := Since(ts, cutoff);
            Suffix(s, ts) && forall j :: 0 <= j < |ts| ==> (ts[j] < cutoff <==> j < |ts| - |s|)
  {
    if ts != [] {
      var n := |ts| - 1;
      var init, last := ts[..n], ts[n];
      assert ts == init + [last];
      if last < cutoff {
        SinceOfOld(ts, cutoff);
      } else {
        SinceOfSorted(init, cutoff);
        assert Since(ts, cutoff) == Since(init, cutoff) + [last];
        hide Since, Sorted;
        assert forall j :: 0 <= j < n ==> ts[j] == init[j];
      }
    }
  }

  lemma SuffixAt(bucket: seq<int>, h: seq<int>, j: nat)
    requires Suffix(bucket, h) && |h| - |bucket| <= j < |h|
    ensures bucket[j - (|h| - |bucket|)] == h[j]
  {}

  lemma SuffixTrans(r: seq<int>, s: seq<int>, h: seq<int>)
    requires Suffix(r, s) && Suffix(s, h)
    ensures Suffix(r, h)
  {
    assert r == h[|h| - |r|..];
  }

  lemma SuffixSnoc(bucket: seq<int>, h: seq<int>, x: int)
    requires Suffix(bucket, h)
    ensures Suffix(bucket + [x], h + [x])
  {}

  lemma LastIsSuffix(ts: seq<int>, n: nat)
    ensures Suffix(Last(ts, n), ts) && |Last(ts, n)| <= n && (|Last(ts, n)| < |ts| ==> |Last(ts, n)| == n)
  {}

  /** What pruning and truncation leave is a suffix, and drops only what is old or
      beyond the newest KEEP. */
  lemma RecordedIsSuffix(bucket: seq<int>, stamp: int, cutoff: int)
    requires Sorted(bucket + [stamp])
    ensures var b, r := bucket + [stamp], Recorded(bucket, stamp, cutoff);
            && Suffix(r, b) && |r| <= KEEP
            && forall j :: 0 <= j < |b| - |r| ==> b[j] < cutoff || |b| - j > KEEP
  {
    var b := bucket + [stamp];
    hide Since, Last, Sorted, Suffix;
    SinceOfSorted(b, cutoff);
    LastIsSuffix(Since(b, cutoff), KEEP);
    SuffixTrans(Recorded(bucket, stamp, cutoff), Since(b, cutoff), b);
    SuffixLength(Since(b, cutoff), b);
    SuffixLength(Recorded(bucket, stamp, cutoff), Since(b, cutoff));
  }

  lemma SuffixLength(s: seq<int>, ts: seq<int>)
    requires Suffix(s, ts)
    ensures |s| <= |ts|
  {}

  lemma RecordedCovers(bucket: seq<int>, h: seq<int>, horizon: int, stamp: int, cutoff: int)
    requires Sorted(h + [stamp]) && Covers(bucket, h, horizon) && horizon <= cutoff
    ensures Covers(Recorded(bucket, stamp, cutoff), h + [stamp], cutoff)
  {
    var h', b, r := h + [stamp], bucket + [stamp], Recorded(bucket, stamp, cutoff);
    SuffixSnoc(bucket, h, stamp);
    SortedSuffix(h', |h'| - |b|);
    RecordedIsSuffix(bucket, stamp, cutoff);
    SuffixTrans(r, b, h');
    hide Recorded, Sorted;
    var gone := |h'| - |b|;
    forall j | 0 <= j < |h'| - |r|
      ensures h'[j] < cutoff || |h'| - j > KEEP
    {
      if j < gone { assert h'[j] == h[j]; } else { SuffixAt(b, h', j); }
    }
  }

  lemma SortedSuffix(ts: seq<int>, k: nat)
    requires Sorted(ts) && k <= |ts|
    ensures Sorted(ts[k..])
  {}

  /** A gate that counts fewer than cap <= KEEP recent entries sees any entry
      that would make the window too full. */
  lemma GateSpacing(bucket: seq<int>, h: seq<int>, horizon: int, now: int, window: nat, cap: nat)
    requires Sorted(h) && Covers(bucket, h, horizon) && horizon <= now - window
    requires 0 < cap <= KEEP && |Since(bucket, now - window)| < cap
    ensures |h| >= cap ==> h[|h| - cap] < now - window
  {
    var gone := |h| - |bucket|;
    assert forall k :: 0 <= k < |bucket| ==> bucket[k] == h[gone + k];
    SinceOfSorted(bucket, now - window);
    if |h| >= cap {
      if |bucket| >= cap {
        assert bucket[|bucket| - cap] < now - window;
      } else {
        assert h[|h| - cap] < horizon;
      }
    }
  }

  /** Consecutive groups of cap + 1 entries never fit in one window. */
  predicate Spaced(h: seq<int>, window: nat, cap: nat) {
    forall i :: 0 <= i < |h| - cap ==> h[i] < h[i + cap] - window
  }

  lemma {:induction false} CountSkipsOld(h: seq<int>, lo: int, hi: int, m: nat)
    requires m <= |h| && forall j :: 0 <= j < m ==> h[j] < lo
    ensures CountIn(h, lo, hi) <= |h| - m
  {
    if h != [] {
      CountSkipsOld(h[..|h| - 1], lo, hi, if m < |h| then m else m - 1);
    }
  }

  lemma {:induction false} SpacedWindowsAreSmall(h: seq<int>, window: nat, cap: nat, lo: int)
    requires Sorted(h) && Spaced(h, window, cap)
    ensures CountIn(h, lo, lo + window) <= cap
  {
    if h != [] {
      var n := |h| - 1;
      SpacedWindowsAreSmall(h[..n], window, cap, lo);
      if h[n] <= lo + window && n >= cap {
        assert h[n - cap] < h[(n - cap) + cap] - window;
        CountSkipsOld(h, lo, lo + window, n - cap + 1);
      } else if n < cap {
        CountSkipsOld(h, lo, lo + window, 0);
      }
    }
  }

  // ----- Whole runs -----------------------------------------------------------

  predicate CapOk(cap: nat) { 0 < cap <= KEEP }

  /** What every run keeps of one window's bucket, given the full history. */
  predicate WindowInv(bucket: seq<int>, h: seq<int>, horizon: int, window: nat, cap: nat) {
    Sorted(h) && Covers(bucket, h, horizon) && (CapOk(cap) ==> Spaced(h, window, cap))
  }

  lemma WindowWaits(bucket: seq<int>, h: seq<int>, horizon: int, later: int, window: nat, cap: nat)
    requires WindowInv(bucket, h, horizon, window, cap) && horizon <= later
    ensures WindowInv(bucket, h, later, window, cap)
  {}

  lemma SpacedSnoc(h: seq<int>, stamp: int, window: nat, cap: nat)
    requires Spaced(h, window, cap) && 0 < cap
    requires |h| >= cap ==> h[|h| - cap] < stamp - window
    ensures Spaced(h + [stamp], window, cap)
  {}

  lemma WindowStep(
    bucket: seq<int>, h: seq<int>, horizon: int, gate: int, stamp: int, cutoff: int, window: nat, cap: nat)
    requires WindowInv(bucket, h, horizon, window, cap) && horizon <= gate - window && horizon <= cutoff
    requires gate <= stamp && (h != [] ==> h[|h| - 1] <= stamp)
    requires CapOk(cap) ==> |Since(bucket, gate - window)| < cap
    ensures WindowInv(Recorded(bucket, stamp, cutoff), h + [stamp], cutoff, window, cap)
  {
    assert Sorted(h + [stamp]);
    RecordedCovers(bucket, h, horizon, stamp, cutoff);
    if CapOk(cap) {
      GateSpacing(bucket, h, horizon, gate, window, cap);
      SpacedSnoc(h, stamp, window, cap);
    }
  }

  /** What every run keeps for one symbol, at clock reading `now`. */
  predicate SymbolInv(l: Limits, b: Book, h: seq<int>, symbol: string, now: int) {
    && (h != [] ==> h[|h| - 1] <= now)
    && WindowInv(Bucket(b.hour, symbol), h, now - 2 * HOUR, HOUR, OrDefault(l.maxHour))
    && WindowInv(Bucket(b.ten, symbol), h, now - TEN_MINUTES, TEN_MINUTES, l.maxTen)
  }

  lemma StepKeepsInv(l: Limits, b: Book, h: seq<int>, a: Attempt, now: int)
    requires SymbolInv(l, b, h, a.symbol, now) && Clocked(a) && now <= a.gate
    ensures SymbolInv(l, Step(l, b, a), if Enters(l, b, a) then h + [a.stamp] else h, a.symbol, a.tenNow)
  {
    hide WindowInv, Recorded, Since;
    var hour, ten, h' := Bucket(b.hour, a.symbol), Bucket(b.ten, a.symbol), h + [a.stamp];
    if Enters(l, b, a) {
      WindowStep(hour, h, now - 2 * HOUR, a.gate, a.stamp, a.hourNow - 2 * HOUR, HOUR, OrDefault(l.maxHour));
      WindowStep(ten, h, now - TEN_MINUTES, a.gate', a.stamp, a.tenNow - TEN_MINUTES, TEN_MINUTES, l.maxTen);
      WindowWaits(Recorded(hour, a.stamp, a.hourNow - 2 * HOUR), h', a.hourNow - 2 * HOUR, a.tenNow - 2 * HOUR,
                  HOUR, OrDefault(l.maxHour));
    } else {
      WindowWaits(hour, h, now - 2 * HOUR, a.tenNow - 2 * HOUR, HOUR, OrDefault(l.maxHour));
      WindowWaits(ten, h, now - TEN_MINUTES, a.tenNow - TEN_MINUTES, TEN_MINUTES, l.maxTen);
    }
  }

  lemma OtherSymbolLeavesBuckets(l: Limits, b: Book, a: Attempt, symbol: string)
    requires a.symbol != symbol
    ensures Bucket(Step(l, b, a).hour, symbol) == Bucket(b.hour, symbol)
    ensures Bucket(Step(l, b, a).ten, symbol) == Bucket(b.ten, symbol)
  {
    hide Enters, Recorded;
  }

  /** The last clock reading of the symbol's own attempts. */
  function LastSeen(run: seq<Attempt>, symbol: string): Option<int> {
    if run == [] then None
    else
      var n := |run| - 1;
      if run[n].symbol == symbol then Some(run[n].tenNow) else LastSeen(run[..n], symbol)
  }

  lemma {:induction false} SeenBefore(run: seq<Attempt>, symbol: string, a: Attempt)
    requires ClockedRun(run + [a]) && a.symbol == symbol && LastSeen(run, symbol).Some?
    ensures LastSeen(run, symbol).value <= a.gate
  {
    var n := |run| - 1;
    var all := run + [a];
    assert all[n] == run[n] && all[|run|] == a;
    if run[n].symbol != symbol {
      forall i, j | 0 <= i < j < |run| && (run[..n] + [a])[i].symbol == (run[..n] + [a])[j].symbol
        ensures (run[..n] + [a])[i].tenNow <= (run[..n] + [a])[j].gate
      {
        assert (run[..n] + [a])[i] == all[i] && (run[..n] + [a])[j] == (if j < n then all[j] else all[|run|]);
      }
      forall i | 0 <= i < |run| ensures Clocked((run[..n] + [a])[i]) {
        assert (run[..n] + [a])[i] == (if i < n then all[i] else all[|run|]);
      }
      SeenBefore(run[..n], symbol, a);
    }
  }

  /** What every run keeps for a symbol, at its own last clock reading. */
  predicate RunInv(l: Limits, run: seq<Attempt>, symbol: string) {
    var b, h := Run(l, run), Entries(l, run, symbol);
    match LastSeen(run, symbol)
    case None => h == [] && Bucket(b.hour, symbol) == [] && Bucket(b.ten, symbol) == []
    case Some(now) => SymbolInv(l, b, h, symbol, now)
  }

  lemma NothingYet(l: Limits, b: Book, symbol: string, now: int)
    requires Bucket(b.hour, symbol) == [] && Bucket(b.ten, symbol) == []
    ensures SymbolInv(l, b, [], symbol, now)
  {}

  lemma {:induction false} RunKeepsInv(l: Limits, run: seq<Attempt>, symbol: string)
    requires ClockedRun(run)
    ensures RunInv(l, run, symbol)
  {
    hide Step, Enters, SymbolInv;
    if run != [] {
      var n := |run| - 1;
      var before, a := run[..n], run[n];
      RunKeepsInv(l, before, symbol);
      var b, h := Run(l, before), Entries(l, before, symbol);
      if a.symbol != symbol {
        OtherSymbolLeavesBuckets(l, b, a, symbol);
        var seen := LastSeen(before, symbol);
        SameBuckets(l, b, Step(l, b, a), h, symbol, if seen.Some? then seen.value else 0);
      } else {
        assert before + [a] == run;
        var now := if LastSeen(before, symbol).Some? then LastSeen(before, symbol).value else a.gate;
        if LastSeen(before, symbol).Some? { SeenBefore(before, symbol, a); } else { NothingYet(l, b, symbol, now); }
        StepKeepsInv(l, b, h, a, now);
      }
    }
  }

  lemma SameBuckets(l: Limits, b: Book, b': Book, h: seq<int>, symbol: string, now: int)
    requires Bucket(b'.hour, symbol) == Bucket(b.hour, symbol) && Bucket(b'.ten, symbol) == Bucket(b.ten, symbol)
    ensures SymbolInv(l, b', h, symbol, now) == SymbolInv(l, b, h, symbol, now)
  {}

  /** A symbol's full history is spaced out as its caps demand. */
  lemma HistoryIsSpaced(l: Limits, run: seq<Attempt>, symbol: string)
    requires ClockedRun(run)
    ensures var h := Entries(l, run, symbol);
            && Sorted(h)
            && (CapOk(OrDefault(l.maxHour)) ==> Spaced(h, HOUR, OrDefault(l.maxHour)))
            && (CapOk(l.maxTen) ==> Spaced(h, TEN_MINUTES, l.maxTen))
  {
    hide Run, Entries;
    RunKeepsInv(l, run, symbol);
  }

  /** Sliding-window rate limit: in every run, every closed one-hour window holds
      at most the hourly cap of a symbol's entries, and every closed ten-minute
      window at most the ten-minute cap, despite pruning and truncation. */
  lemma WindowsNeverOverflow(l: Limits, run: seq<Attempt>, symbol: string, lo: int)
    requires ClockedRun(run)
    ensures CapOk(OrDefault(l.maxHour)) ==>
      CountIn(Entries(l, run, symbol), lo, lo + HOUR) <= OrDefault(l.maxHour)
    ensures CapOk(l.maxTen) ==> CountIn(Entries(l, run, symbol), lo, lo + TEN_MINUTES) <= l.maxTen
  {
    hide Run, Entries;
    HistoryIsSpaced(l, run, symbol);
    var h := Entries(l, run, symbol);
    if CapOk(OrDefault(l.maxHour)) { SpacedWindowsAreSmall(h, HOUR, OrDefault(l.maxHour), lo); }
    if CapOk(l.maxTen) { SpacedWindowsAreSmall(h, TEN_MINUTES, l.maxTen, lo); }
  }

  // ----- When the caps hold in every run ---------------------------------------

  lemma {:induction false} SinceShrinks(ts: seq<int>, cutoff: int)
    ensures |Since(ts, cutoff)| <= |ts|
  {
    if ts != [] { SinceShrinks(ts[..|ts| - 1], cutoff); }
  }

  predicate AllWithin(h: seq<int>, lo: int, hi: int) { forall k :: 0 <= k < |h| ==> lo <= h[k] <= hi }

  lemma {:induction false} CountAllWithin(h: seq<int>, lo: int, hi: int)
    requires AllWithin(h, lo, hi)
    ensures CountIn(h, lo, hi) == |h|
  {
    if h != [] { CountAllWithin(h[..|h| - 1], lo, hi); }
  }

  lemma {:induction false} CountInNarrow(h: seq<int>, lo: int, hi: int, hi': int)
    requires hi <= hi'
    ensures CountIn(h, lo, hi) <= CountIn(h, lo, hi')
  {
    if h != [] { CountInNarrow(h[..|h| - 1], lo, hi, hi'); }
  }

  /** A placed attempt at one instant, with no recent loss. */
  function At(time: int): Attempt { Attempt("X", time, time, true, time, time, time, 0, false) }

  /** One entry more when the attempt passes the gate. */
  lemma EntersMore(l: Limits, run: seq<Attempt>, time: int)
    requires Enters(l, Run(l, run), At(time))
    ensures Entries(l, run + [At(time)], "X") == Entries(l, run, "X") + [time]
  {
    assert (run + [At(time)])[..|run|] == run;
    hide Enters, Run;
  }

  lemma PassesGate(l: Limits, b: Book, time: int)
    requires |Since(Bucket(b.hour, "X"), time - HOUR)| < OrDefault(l.maxHour)
    requires l.maxTen != 0 ==> |Since(Bucket(b.ten, "X"), time - TEN_MINUTES)| < l.maxTen
    ensures Enters(l, b, At(time))
  {}

  /** No bucket ever holds more than the newest KEEP stamps of the full history. */
  lemma BucketsAreSuffixes(l: Limits, run: seq<Attempt>)
    requires ClockedRun(run)
    ensures var b, h := Run(l, run), Entries(l, run, "X");
            && Sorted(h) && Suffix(Bucket(b.ten, "X"), h)
            && |Bucket(b.hour, "X")| <= KEEP && |Bucket(b.ten, "X")| <= KEEP
  {
    hide Run, Entries;
    RunKeepsInv(l, run, "X");
  }

  /** n attempts at time 0. */
  function Burst(n: nat): seq<Attempt> { seq(n, _ => At(0)) }

  lemma BurstsAreClocked(n: nat)
    ensures ClockedRun(Burst(n))
  {}

  lemma BurstSnoc(n: nat)
    ensures Burst(n + 1) == Burst(n) + [At(0)]
  {
    hide At;
  }

  /** Caps above the number of kept stamps never bind. */
  lemma {:induction false} BurstEntersEachTime(l: Limits, n: nat)
    requires OrDefault(l.maxHour) > KEEP && (l.maxTen == 0 || l.maxTen > KEEP)
    ensures |Entries(l, Burst(n), "X")| == n && AllWithin(Entries(l, Burst(n), "X"), 0, 0)
  {
    if n > 0 {
      BurstEntersEachTime(l, n - 1);
      hide *;
      BurstsAreClocked(n - 1);
      BurstSnoc(n - 1);
      KeptCapsPass(l, Burst(n - 1), 0);
      EntersMore(l, Burst(n - 1), 0);
      WithinSnoc(Entries(l, Burst(n - 1), "X"), 0);
    }
  }

  lemma WithinSnoc(h: seq<int>, x: int)
    requires AllWithin(h, x, x)
    ensures AllWithin(h + [x], x, x)
  {}

  lemma KeptCapsPass(l: Limits, run: seq<Attempt>, time: int)
    requires ClockedRun(run) && OrDefault(l.maxHour) > KEEP && (l.maxTen == 0 || l.maxTen > KEEP)
    ensures Enters(l, Run(l, run), At(time))
  {
    hide Run, ClockedRun, Since, Bucket, Enters, At;
    CountsAtMostKept(l, run, time);
    PassesGate(l, Run(l, run), time);
  }

  lemma CountsAtMostKept(l: Limits, run: seq<Attempt>, time: int)
    requires ClockedRun(run)
    ensures |Since(Bucket(Run(l, run).hour, "X"), time - HOUR)| <= KEEP
    ensures |Since(Bucket(Run(l, run).ten, "X"), time - TEN_MINUTES)| <= KEEP
  {
    hide Run, ClockedRun;
    BucketsAreSuffixes(l, run);
    SinceShrinks(Bucket(Run(l, run).hour, "X"), time - HOUR);
    SinceShrinks(Bucket(Run(l, run).ten, "X"), time - TEN_MINUTES);
  }

  /** n attempts in waves of `size`, one wave every 601 seconds. */
  function Waves(size: nat, n: nat): seq<Attempt>
    requires size > 0
  {
    seq(n, j requires 0 <= j < n => At(WaveTime(size, j)))
  }

  function WaveTime(size: nat, j: nat): (t: nat)
    requires size > 0
  {
    (TEN_MINUTES + 1) * (j / size)
  }

  lemma WaveTimes(size: nat, j: nat, k: nat)
    requires size > 0 && j <= k
    ensures WaveTime(size, j) <= WaveTime(size, k)
    ensures j < size * (k / size) ==> WaveTime(size, j) < WaveTime(size, k) - TEN_MINUTES
    ensures 0 <= k - size * (k / size) < size
    ensures k < 6 * size ==> WaveTime(size, k) <= HOUR
  {
    QuotientMonotone(size, j, k);
    if k / size >= 6 { QuotientMonotone(size, 6 * size, k); }
  }

  lemma QuotientMonotone(size: nat, j: nat, k: nat)
    requires size > 0 && j <= k
    ensures j / size <= k / size
    ensures j < size * (k / size) ==> j / size < k / size
    ensures 0 <= k - size * (k / size) < size
  {
    QuotientBounds(size, j);
    QuotientBounds(size, k);
    QuotientOrder(size, j, k, j / size, k / size, size * (j / size), size * (k / size));
  }

  lemma QuotientBounds(size: nat, j: nat)
    requires size > 0
    ensures size * (j / size) <= j < size * (j / size) + size
  {}

  lemma QuotientOrder(size: nat, j: nat, k: nat, p: nat, q: nat, sp: nat, sq: nat)
    requires sp == size * p && sq == size * q && sp <= j < sp + size && sq <= k < sq + size && j <= k
    ensures p <= q && (j < sq ==> p < q)
  {
    MulStep(size, q, p);
    MulOrder(size, q, p);
  }

  lemma MulOrder(size: nat, a: nat, b: nat)
    ensures a <= b ==> size * a <= size * b
  {}

  lemma MulStep(size: nat, a: nat, b: nat)
    ensures a < b ==> size * a + size <= size * b
  {
    if a < b {
      MulOrder(size, a + 1, b);
      assert size * (a + 1) == size * a + size;
    }
  }

  /** A symbol's entries are the waves' times, so far. */
  predicate AreWaves(h: seq<int>, size: nat, n: nat)
    requires size > 0
  {
    |h| == n && forall k :: 0 <= k < n ==> h[k] == WaveTime(size, k)
  }

  /** The bucket's stamps from `cutoff` on are among the entries from index m on. */
  lemma SinceOfSuffix(bucket: seq<int>, h: seq<int>, cutoff: int, m: nat)
    requires Sorted(h) && Suffix(bucket, h) && m <= |h|
    requires forall i :: 0 <= i < m ==> h[i] < cutoff
    ensures |Since(bucket, cutoff)| <= |h| - m
  {
    SortedSuffix(h, |h| - |bucket|);
    SinceOfSorted(bucket, cutoff);
    var s := Since(bucket, cutoff);
    if |s| > |h| - m { SuffixAt(bucket, h, |h| - |s|); }
  }

  lemma WavesAreClocked(size: nat, n: nat)
    requires size > 0
    ensures ClockedRun(Waves(size, n))
  {
    var run := Waves(size, n);
    forall i, j | 0 <= i < j < n ensures run[i].tenNow <= run[j].gate { WaveTimes(size, i, j); }
  }

  lemma WavesSnoc(size: nat, n: nat)
    requires size > 0
    ensures Waves(size, n + 1) == Waves(size, n) + [At(WaveTime(size, n))]
  {
    hide At, WaveTime;
  }

  lemma WavePasses(l: Limits, run: seq<Attempt>)
    requires OrDefault(l.maxHour) > KEEP && 0 < l.maxTen && ClockedRun(run)
    requires var h := Entries(l, run, "X"); AreWaves(h, l.maxTen, |h|)
    ensures Enters(l, Run(l, run), At(WaveTime(l.maxTen, |Entries(l, run, "X")|)))
  {
    hide Run, Entries, ClockedRun, Enters, WaveTime, Since, Bucket, At, Sorted, Suffix, AreWaves;
    var h := Entries(l, run, "X");
    var time := WaveTime(l.maxTen, |h|);
    CountsAtMostKept(l, run, time);
    BucketsAreSuffixes(l, run);
    WaveLeavesRoom(Bucket(Run(l, run).ten, "X"), h, l.maxTen);
    PassesGate(l, Run(l, run), time);
  }

  /** Waves of as many attempts as the ten-minute cap all enter when the hourly cap
      is above the number of kept stamps. */
  lemma {:induction false} WavesEnterEachTime(l: Limits, n: nat)
    requires OrDefault(l.maxHour) > KEEP && 0 < l.maxTen
    ensures AreWaves(Entries(l, Waves(l.maxTen, n), "X"), l.maxTen, n)
  {
    if n > 0 {
      WavesEnterEachTime(l, n - 1);
      hide *;
      var size := l.maxTen;
      WavesAreClocked(size, n - 1);
      WavesSnoc(size, n - 1);
      var h := Entries(l, Waves(size, n - 1), "X");
      assert |h| == n - 1 by { AreWavesLength(h, size, n - 1); }
      WavePasses(l, Waves(size, n - 1));
      EntersMore(l, Waves(size, n - 1), WaveTime(size, n - 1));
      AreWavesSnoc(h, size);
    }
  }

  lemma AreWavesLength(h: seq<int>, size: nat, n: nat)
    requires size > 0 && AreWaves(h, size, n)
    ensures |h| == n
  {}

  lemma AreWavesSnoc(h: seq<int>, size: nat)
    requires size > 0 && AreWaves(h, size, |h|)
    ensures AreWaves(h + [WaveTime(size, |h|)], size, |h| + 1)
  {
    hide WaveTime;
  }

  lemma WaveLeavesRoom(bucket: seq<int>, h: seq<int>, size: nat)
    requires size > 0 && Sorted(h) && Suffix(bucket, h) && AreWaves(h, size, |h|)
    ensures |Since(bucket, WaveTime(size, |h|) - TEN_MINUTES)| < size
  {
    var m := size * (|h| / size);
    hide WaveTime, Sorted;
    WaveTimes(size, |h|, |h|);
    forall i | 0 <= i < m ensures h[i] < WaveTime(size, |h|) - TEN_MINUTES { WaveTimes(size, i, |h|); }
    SinceOfSuffix(bucket, h, WaveTime(size, |h|) - TEN_MINUTES, m);
  }

  ghost predicate HourlyCapHolds(l: Limits, run: seq<Attempt>) {
    forall symbol, lo, hi :: hi == lo + HOUR ==> CountIn(Entries(l, run, symbol), lo, hi) <= OrDefault(l.maxHour)
  }

  ghost predicate TenMinuteCapHolds(l: Limits, run: seq<Attempt>) {
    l.maxTen != 0
    ==> forall symbol, lo, hi :: hi == lo + TEN_MINUTES ==> CountIn(Entries(l, run, symbol), lo, hi) <= l.maxTen
  }

  /** The hourly cap is among the kept stamps, or six ten-minute windows fit in it. */
  predicate HourlyCapIsKept(l: Limits) {
    OrDefault(l.maxHour) <= KEEP || (0 < l.maxTen <= KEEP && 6 * l.maxTen <= OrDefault(l.maxHour))
  }

  /** The hourly limit holds in every run exactly when its cap is at most the 20
      stamps that are kept (0 reads as 99), or the ten-minute cap is, and six times
      it is within the hourly cap. */
  lemma HourlyCapHoldsIff(l: Limits)
    ensures (forall run :: ClockedRun(run) ==> HourlyCapHolds(l, run)) <==> HourlyCapIsKept(l)
  {
    if HourlyCapIsKept(l) {
      forall run | ClockedRun(run) ensures HourlyCapHolds(l, run) { HourlyCapInRun(l, run); }
    } else if l.maxTen == 0 || l.maxTen > KEEP {
      hide HourlyCapHolds;
      BurstOverflowsHour(l);
    } else {
      hide HourlyCapHolds;
      WavesOverflowHour(l);
    }
  }

  /** The ten-minute limit (0: none) holds in every run exactly when its cap or the
      hourly one is at most the 20 stamps that are kept. */
  lemma TenMinuteCapHoldsIff(l: Limits)
    ensures (forall run :: ClockedRun(run) ==> TenMinuteCapHolds(l, run))
       <==> l.maxTen <= KEEP || OrDefault(l.maxHour) <= KEEP
  {
    if l.maxTen <= KEEP || OrDefault(l.maxHour) <= KEEP {
      forall run | ClockedRun(run) ensures TenMinuteCapHolds(l, run) { TenMinuteCapInRun(l, run); }
    } else {
      hide TenMinuteCapHolds;
      BurstOverflowsTenMinutes(l);
    }
  }

  /** Six windows in a row. */
  lemma SpacedChain(h: seq<int>, cap: nat)
    requires Spaced(h, TEN_MINUTES, cap)
    ensures Spaced(h, HOUR, 6 * cap)
  {
    forall i | 0 <= i < |h| - 6 * cap ensures h[i] < h[i + 6 * cap] - HOUR {
      assert h[i] < h[i + cap] - TEN_MINUTES;
      assert h[i + cap] < h[i + cap + cap] - TEN_MINUTES;
      assert h[i + 2 * cap] < h[i + 2 * cap + cap] - TEN_MINUTES;
      assert h[i + 3 * cap] < h[i + 3 * cap + cap] - TEN_MINUTES;
      assert h[i + 4 * cap] < h[i + 4 * cap + cap] - TEN_MINUTES;
      assert h[i + 5 * cap] < h[i + 5 * cap + cap] - TEN_MINUTES;
    }
  }

  lemma HourlyCapInRun(l: Limits, run: seq<Attempt>)
    requires ClockedRun(run) && HourlyCapIsKept(l)
    ensures HourlyCapHolds(l, run)
  {
    hide Entries, ClockedRun;
    forall symbol, lo, hi | hi == lo + HOUR
      ensures CountIn(Entries(l, run, symbol), lo, hi) <= OrDefault(l.maxHour)
    {
      if OrDefault(l.maxHour) <= KEEP {
        WindowsNeverOverflow(l, run, symbol, lo);
      } else {
        HistoryIsSpaced(l, run, symbol);
        SpacedChain(Entries(l, run, symbol), l.maxTen);
        SpacedWindowsAreSmall(Entries(l, run, symbol), HOUR, 6 * l.maxTen, lo);
      }
    }
  }

  lemma TenMinuteCapInRun(l: Limits, run: seq<Attempt>)
    requires ClockedRun(run) && (l.maxTen <= KEEP || OrDefault(l.maxHour) <= KEEP)
    ensures TenMinuteCapHolds(l, run)
  {
    hide Entries, ClockedRun;
    if l.maxTen != 0 {
      forall symbol, lo, hi | hi == lo + TEN_MINUTES
        ensures CountIn(Entries(l, run, symbol), lo, hi) <= l.maxTen
      {
        WindowsNeverOverflow(l, run, symbol, lo);
        CountInNarrow(Entries(l, run, symbol), lo, hi, lo + HOUR);
      }
    }
  }

  lemma BurstOverflows(l: Limits, n: nat, hi: int)
    requires OrDefault(l.maxHour) > KEEP && (l.maxTen == 0 || l.maxTen > KEEP) && hi >= 0
    ensures ClockedRun(Burst(n)) && CountIn(Entries(l, Burst(n), "X"), 0, hi) == n
  {
    hide Entries, Burst, ClockedRun;
    BurstsAreClocked(n);
    BurstEntersEachTime(l, n);
    CountAllWithin(Entries(l, Burst(n), "X"), 0, hi);
  }

  lemma BurstOverflowsHour(l: Limits)
    requires OrDefault(l.maxHour) > KEEP && (l.maxTen == 0 || l.maxTen > KEEP)
    ensures exists run :: ClockedRun(run) && !HourlyCapHolds(l, run)
  {
    hide Entries, Burst, ClockedRun;
    var run := Burst(OrDefault(l.maxHour) + 1);
    BurstOverflows(l, OrDefault(l.maxHour) + 1, HOUR);
    assert CountIn(Entries(l, run, "X"), 0, HOUR) > OrDefault(l.maxHour) && HOUR == 0 + HOUR;
    assert !HourlyCapHolds(l, run);
  }

  lemma BurstOverflowsTenMinutes(l: Limits)
    requires OrDefault(l.maxHour) > KEEP && l.maxTen > KEEP
    ensures exists run :: ClockedRun(run) && !TenMinuteCapHolds(l, run)
  {
    hide Entries, Burst, ClockedRun;
    var run := Burst(l.maxTen + 1);
    BurstOverflows(l, l.maxTen + 1, TEN_MINUTES);
    assert CountIn(Entries(l, run, "X"), 0, TEN_MINUTES) > l.maxTen && TEN_MINUTES == 0 + TEN_MINUTES;
    assert !TenMinuteCapHolds(l, run);
  }

  lemma WavesOverflowHour(l: Limits)
    requires OrDefault(l.maxHour) > KEEP && 0 < l.maxTen && 6 * l.maxTen > OrDefault(l.maxHour)
    ensures exists run :: ClockedRun(run) && !HourlyCapHolds(l, run)
  {
    var n := 6 * l.maxTen;
    var run := Waves(l.maxTen, n);
    WavesAreClocked(l.maxTen, n);
    WavesEnterEachTime(l, n);
    hide Entries, Waves, ClockedRun, WaveTime;
    var h := Entries(l, run, "X");
    forall k | 0 <= k < n ensures 0 <= h[k] <= HOUR { WaveTimes(l.maxTen, k, k); }
    CountAllWithin(h, 0, HOUR);
    assert CountIn(h, 0, HOUR) > OrDefault(l.maxHour) && HOUR == 0 + HOUR;
    assert !HourlyCapHolds(l, run);
  }
}
