/** Order batches of several loops under the shared trade lock, interleaved with
    closes at any time (core/mt5_broker.py), and the caps their gates enforce
    (core/blue_guardian.py, core/dynamic_entry.py). */
module TradeCaps {
  import opened Numbers

  datatype Position = Position(ticket: nat, symbol: string)

  type Account = set<Position>

  /** A signal with the verdict of the gates that do not count positions. */
  datatype Signal = Signal(symbol: string, otherGates: bool)

  /** guardian: Blue Guardian is on; perSymbol <= 0: no per-symbol limit. */
  datatype Caps = Caps(guardian: bool, maxTotal: int, guardPerSymbol: int, perSymbol: int)

  function OfSymbol(ps: Account, symbol: string): Account { set p | p in ps && p.symbol == symbol }

  function SymbolCount(ps: Account, symbol: string): nat { |OfSymbol(ps, symbol)| }

  predicate EntryGates(c: Caps, ps: Account, symbol: string) {
    !c.guardian || (|ps| < c.maxTotal && SymbolCount(ps, symbol) < c.guardPerSymbol)
  }

  predicate CapacityAvailable(c: Caps, ps: Account, symbol: string) {
    c.perSymbol <= 0 || SymbolCount(ps, symbol) < c.perSymbol
  }

  predicate Passes(c: Caps, snapshot: Account, s: Signal) {
    EntryGates(c, snapshot, s.symbol) && CapacityAvailable(c, snapshot, s.symbol) && s.otherGates
  }

  // ----- The protocol ----------------------------------------------------------------

  /** A loop between batches; about to re-read positions; or deciding its next
      signal on the positions it last read. */
  datatype Loop = Idle | Reading(todo: seq<Signal>) | Ready(snapshot: Account, todo: seq<Signal>)

  datatype State = State(account: Account, loops: seq<Loop>, lock: Option<nat>)

  datatype Event =
    | Acquire(id: nat, batch: seq<Signal>)
    | Read(id: nat, ok: bool)
    | Decide(id: nat, filled: bool, ticket: nat)
    | Release(id: nat)
    | Closed(ps: Account)

  /** What a loop takes to be open: a read that fails counts as no positions. */
  function Seen(ok: bool, ps: Account): Account { if ok then ps else {} }

  /** `locking` is false where the shared lock is unavailable and batches run
      without it. */
  predicate Enabled(locking: bool, s: State, e: Event) {
    match e
    case Acquire(id, _) => id < |s.loops| && s.loops[id].Idle? && (locking ==> s.lock.None?)
    case Read(id, _) => id < |s.loops| && s.loops[id].Reading?
    case Decide(id, _, _) => id < |s.loops| && s.loops[id].Ready? && s.loops[id].todo != []
    case Release(id) => id < |s.loops| && s.loops[id].Ready? && s.loops[id].todo == []
    case Closed(_) => true
  }

  function Apply(c: Caps, locking: bool, s: State, e: Event): State
    requires Enabled(locking, s, e)
  {
    match e
    case Acquire(id, batch) =>
      s.(loops := s.loops[id := Reading(batch)], lock := if locking then Some(id) else s.lock)
    case Read(id, ok) => s.(loops := s.loops[id := Ready(Seen(ok, s.account), s.loops[id].todo)])
    case Decide(id, filled, ticket) =>
      var l := s.loops[id];
      var rest := l.todo[1..];
      if Passes(c, l.snapshot, l.todo[0]) && filled then
        State(s.account + {Position(ticket, l.todo[0].symbol)}, s.loops[id := Reading(rest)], s.lock)
      else s.(loops := s.loops[id := Ready(l.snapshot, rest)])
    case Release(id) => s.(loops := s.loops[id := Idle], lock := if locking then None else s.lock)
    case Closed(ps) => s.(account := s.account - ps)
  }

  predicate AllEnabled(c: Caps, locking: bool, s: State, es: seq<Event>)
    decreases |es|
  {
    es == [] || (Enabled(locking, s, es[0]) && AllEnabled(c, locking, Apply(c, locking, s, es[0]), es[1..]))
  }

  function Run(c: Caps, locking: bool, s: State, es: seq<Event>): State
    requires AllEnabled(c, locking, s, es)
    decreases |es|
  {
    if es == [] then s else Run(c, locking, Apply(c, locking, s, es[0]), es[1..])
  }

  // ----- One batch as the code runs it ---------------------------------------------------

  /** What the terminal does around one signal: positions closed before the
      decision and between the order and the re-read, the order's fate and whether
      the re-read succeeds. */
  datatype Turn = Turn(before: Account, filled: bool, ticket: nat, after: Account, reread: bool)

  datatype BatchResult = BatchResult(account: Account, placed: seq<nat>)

  /** Each signal is decided on the positions read at the start or after the last
      order that filled, whatever has closed since. */
  function Batch(c: Caps, account: Account, snapshot: Account, todo: seq<Signal>, turns: seq<Turn>): BatchResult
    requires |todo| == |turns|
    decreases |todo|
  {
    if todo == [] then BatchResult(account, [])
    else
      var t, left := turns[0], account - turns[0].before;
      if Passes(c, snapshot, todo[0]) && t.filled then
        var now := left + {Position(t.ticket, todo[0].symbol)} - t.after;
        var rest := Batch(c, now, Seen(t.reread, now), todo[1..], turns[1..]);
        BatchResult(rest.account, [t.ticket] + rest.placed)
      else Batch(c, left, snapshot, todo[1..], turns[1..])
  }

  class Terminal {
    var open: Account

    /** The batch, run while the caller holds the lock. */
    method ProcessApprovedSignalsUnsafe(c: Caps, firstRead: bool, approved: seq<Signal>, turns: seq<Turn>)
      returns (placed: seq<nat>, errors: nat)
      requires |turns| == |approved|
      modifies this
      ensures BatchResult(open, placed) == Batch(c, old(open), Seen(firstRead, old(open)), approved, turns)
      ensures |placed| + errors <= |approved|
    {
      hide Passes;
      ghost var result := Batch(c, open, Seen(firstRead, open), approved, turns);
      placed, errors := [], 0;
      var snapshot := Seen(firstRead, open);
      for i := 0 to |approved|
        invariant var rest := Batch(c, open, snapshot, approved[i..], turns[i..]);
          result == BatchResult(rest.account, placed + rest.placed)
        invariant |placed| + errors <= i
      {
        var t, signal := turns[i], approved[i];
        assert approved[i..][0] == signal && approved[i..][1..] == approved[i + 1..];
        assert turns[i..][0] == t && turns[i..][1..] == turns[i + 1..];
        open := open - t.before;
        if Passes(c, snapshot, signal) {
          if t.filled {
            open := open + {Position(t.ticket, signal.symbol)};
            placed := placed + [t.ticket];
            open := open - t.after;
            snapshot := Seen(t.reread, open);
          } else {
            errors := errors + 1;
          }
        }
      }
    }
  }

  /** The protocol events of a batch from its first decision to its release. */
  function BatchEvents(c: Caps, id: nat, account: Account, snapshot: Account, todo: seq<Signal>, turns: seq<Turn>)
    : seq<Event>
    requires |todo| == |turns|
    decreases |todo|
  {
    if todo == [] then [Release(id)]
    else
      var t, left := turns[0], account - turns[0].before;
      if Passes(c, snapshot, todo[0]) && t.filled then
        var now := left + {Position(t.ticket, todo[0].symbol)} - t.after;
        [Closed(t.before), Decide(id, t.filled, t.ticket), Closed(t.after), Read(id, t.reread)]
        + BatchEvents(c, id, now, Seen(t.reread, now), todo[1..], turns[1..])
      else
        [Closed(t.before), Decide(id, t.filled, t.ticket)]
        + BatchEvents(c, id, left, snapshot, todo[1..], turns[1..])
  }

  predicate Leads(c: Caps, locking: bool, s: State, e: Event, s': State) {
    Enabled(locking, s, e) && Apply(c, locking, s, e) == s'
  }

  predicate Reaches(c: Caps, locking: bool, s: State, es: seq<Event>, end: State) {
    AllEnabled(c, locking, s, es) && Run(c, locking, s, es) == end
  }

  lemma RunCons(c: Caps, locking: bool, s: State, e: Event, s': State, es: seq<Event>, end: State)
    requires Leads(c, locking, s, e, s') && Reaches(c, locking, s', es, end)
    ensures Reaches(c, locking, s, [e] + es, end)
  {
    hide Enabled, Apply;
    assert ([e] + es)[1..] == es;
  }

  lemma {:induction false} BatchRunsProtocol(
    c: Caps, id: nat, loops: seq<Loop>, account: Account, snapshot: Account, todo: seq<Signal>, turns: seq<Turn>)
    requires |todo| == |turns| && id < |loops|
    ensures Reaches(c, true, State(account, loops[id := Ready(snapshot, todo)], Some(id)),
                    BatchEvents(c, id, account, snapshot, todo, turns),
                    State(Batch(c, account, snapshot, todo, turns).account, loops[id := Idle], None))
    decreases |todo|
  {
    hide Passes, Reaches;
    var s := State(account, loops[id := Ready(snapshot, todo)], Some(id));
    var end := State(Batch(c, account, snapshot, todo, turns).account, loops[id := Idle], None);
    if todo == [] {
      assert loops[id := Ready(snapshot, todo)][id := Idle] == loops[id := Idle];
      NoEvents(c, end);
      RunCons(c, true, s, Release(id), end, [], end);
      assert [Release(id)] + [] == [Release(id)];
    } else {
      var t, left, rest := turns[0], account - turns[0].before, todo[1..];
      var s1 := s.(account := left);
      if Passes(c, snapshot, todo[0]) && t.filled {
        var filled := left + {Position(t.ticket, todo[0].symbol)};
        var now := filled - t.after;
        var s2 := State(filled, loops[id := Reading(rest)], Some(id));
        var s3 := s2.(account := now);
        var seen := Seen(t.reread, now);
        var s4 := State(now, loops[id := Ready(seen, rest)], Some(id));
        var es := BatchEvents(c, id, now, seen, rest, turns[1..]);
        BatchRunsProtocol(c, id, loops, now, seen, rest, turns[1..]);
        assert loops[id := Ready(snapshot, todo)][id := Reading(rest)] == loops[id := Reading(rest)];
        assert loops[id := Reading(rest)][id := Ready(seen, rest)] == loops[id := Ready(seen, rest)];
        RunCons(c, true, s3, Read(id, t.reread), s4, es, end);
        var reading := [Read(id, t.reread)] + es;
        RunCons(c, true, s2, Closed(t.after), s3, reading, end);
        RunCons(c, true, s1, Decide(id, t.filled, t.ticket), s2, [Closed(t.after)] + reading, end);
        var later := [Decide(id, t.filled, t.ticket)] + ([Closed(t.after)] + reading);
        RunCons(c, true, s, Closed(t.before), s1, later, end);
        assert [Closed(t.before)] + later == BatchEvents(c, id, account, snapshot, todo, turns);
      } else {
        var s2 := State(left, loops[id := Ready(snapshot, rest)], Some(id));
        var es := BatchEvents(c, id, left, snapshot, rest, turns[1..]);
        BatchRunsProtocol(c, id, loops, left, snapshot, rest, turns[1..]);
        assert loops[id := Ready(snapshot, todo)][id := Ready(snapshot, rest)] == loops[id := Ready(snapshot, rest)];
        RunCons(c, true, s1, Decide(id, t.filled, t.ticket), s2, es, end);
        RunCons(c, true, s, Closed(t.before), s1, [Decide(id, t.filled, t.ticket)] + es, end);
        assert [Closed(t.before)] + ([Decide(id, t.filled, t.ticket)] + es)
            == BatchEvents(c, id, account, snapshot, todo, turns);
      }
    }
  }

  lemma NoEvents(c: Caps, s: State)
    ensures Reaches(c, true, s, [], s)
  {}

  /** The code's batch, from acquiring the lock to releasing it, is a run of the
      protocol in which this loop holds the lock. */
  lemma LockedBatchIsARun(
    c: Caps, id: nat, loops: seq<Loop>, account: Account, ok: bool, todo: seq<Signal>, turns: seq<Turn>)
    requires |todo| == |turns| && id < |loops| && loops[id].Idle?
    ensures var seen := Seen(ok, account);
            Reaches(c, true, State(account, loops, None),
                    [Acquire(id, todo)] + ([Read(id, ok)] + BatchEvents(c, id, account, seen, todo, turns)),
                    State(Batch(c, account, seen, todo, turns).account, loops, None))
  {
    hide Passes, Reaches;
    var seen := Seen(ok, account);
    var es := BatchEvents(c, id, account, seen, todo, turns);
    var s0, s1 := State(account, loops, None), State(account, loops[id := Reading(todo)], Some(id));
    var s2 := State(account, loops[id := Ready(seen, todo)], Some(id));
    var end := State(Batch(c, account, seen, todo, turns).account, loops, None);
    BatchRunsProtocol(c, id, loops, account, seen, todo, turns);
    assert loops[id := Idle] == loops;
    assert loops[id := Reading(todo)][id := Ready(seen, todo)] == loops[id := Ready(seen, todo)];
    RunCons(c, true, s1, Read(id, ok), s2, es, end);
    RunCons(c, true, s0, Acquire(id, todo), s1, [Read(id, ok)] + es, end);
  }

  // ----- Caps under every interleaving -------------------------------------------------------

  /** There is room under every cap that applies to the symbol. */
  predicate Spare(c: Caps, ps: Account, symbol: string) {
    && (c.guardian ==> |ps| < c.maxTotal && SymbolCount(ps, symbol) < c.guardPerSymbol)
    && (c.perSymbol > 0 ==> SymbolCount(ps, symbol) < c.perSymbol)
  }

  /** Only the lock holder is in a batch; it decides on a superset of what is open,
      or there is room to spare. */
  predicate Guarded(c: Caps, s: State, symbol: string) {
    && (forall i :: 0 <= i < |s.loops| && s.lock != Some(i) ==> s.loops[i].Idle?)
    && (forall i :: 0 <= i < |s.loops| && s.loops[i].Ready? ==>
          s.account <= s.loops[i].snapshot || Spare(c, s.account, symbol))
  }

  /** A read fails only while nothing is open or there is room to spare. */
  predicate ReadIsSafe(c: Caps, s: State, e: Event, symbol: string) {
    e.Read? && !e.ok ==> s.account == {} || Spare(c, s.account, symbol)
  }

  predicate ReadsAreSafe(c: Caps, s: State, es: seq<Event>, symbol: string)
    requires AllEnabled(c, true, s, es)
    decreases |es|
  {
    es == [] || (ReadIsSafe(c, s, es[0], symbol) && ReadsAreSafe(c, Apply(c, true, s, es[0]), es[1..], symbol))
  }

  /** A count is at most its cap, or at most what it was. */
  predicate Holds(cap: int, was: nat, now: nat) { now <= cap || now <= was }

  /** No cap is exceeded, except where the account already was over it at the start. */
  predicate WithinCaps(c: Caps, was: Account, now: Account, symbol: string) {
    && (c.guardian ==> Holds(c.maxTotal, |was|, |now|))
    && (c.guardian ==> Holds(c.guardPerSymbol, SymbolCount(was, symbol), SymbolCount(now, symbol)))
    && (c.perSymbol > 0 ==> Holds(c.perSymbol, SymbolCount(was, symbol), SymbolCount(now, symbol)))
  }

  lemma SubsetCounts(a: Account, b: Account, symbol: string)
    requires a <= b
    ensures |a| <= |b| && SymbolCount(a, symbol) <= SymbolCount(b, symbol)
  {
    SubsetSize(a, b);
    SubsetSize(OfSymbol(a, symbol), OfSymbol(b, symbol));
  }

  lemma SubsetSize(a: Account, b: Account)
    requires a <= b
    ensures |a| <= |b|
  {
    assert b == a + (b - a);
  }

  lemma OneMore(a: Account, p: Position, symbol: string)
    ensures |a + {p}| <= |a| + 1
    ensures SymbolCount(a + {p}, symbol) <= SymbolCount(a, symbol) + if p.symbol == symbol then 1 else 0
  {
    if p.symbol == symbol {
      assert OfSymbol(a + {p}, symbol) == OfSymbol(a, symbol) + {p};
    } else {
      assert OfSymbol(a + {p}, symbol) == OfSymbol(a, symbol);
    }
  }

  lemma FewerAreSpare(c: Caps, ps: Account, fewer: Account, symbol: string)
    requires Spare(c, ps, symbol) && fewer <= ps
    ensures Spare(c, fewer, symbol)
  {
    SubsetCounts(fewer, ps, symbol);
  }

  lemma StepKeepsGuard(c: Caps, s: State, e: Event, symbol: string)
    requires Guarded(c, s, symbol) && Enabled(true, s, e) && ReadIsSafe(c, s, e, symbol)
    ensures Guarded(c, Apply(c, true, s, e), symbol)
  {
    hide Passes, Spare;
    if e.Closed? && Spare(c, s.account, symbol) { FewerAreSpare(c, s.account, s.account - e.ps, symbol); }
  }

  lemma PlacementKeepsCaps(
    c: Caps, was: Account, now: Account, snapshot: Account, p: Position, otherGates: bool, symbol: string)
    requires WithinCaps(c, was, now, symbol) && Passes(c, snapshot, Signal(p.symbol, otherGates))
    requires now <= snapshot || Spare(c, now, symbol)
    ensures WithinCaps(c, was, now + {p}, symbol)
  {
    hide SymbolCount;
    OneMore(now, p, symbol);
    if now <= snapshot {
      SubsetCounts(now, snapshot, symbol);
      SubsetCounts(now, snapshot, p.symbol);
    }
  }

  lemma StepKeepsCaps(c: Caps, was: Account, s: State, e: Event, symbol: string)
    requires Guarded(c, s, symbol) && Enabled(true, s, e) && WithinCaps(c, was, s.account, symbol)
    ensures WithinCaps(c, was, Apply(c, true, s, e).account, symbol)
  {
    hide Passes, WithinCaps, Spare;
    match e
    case Decide(id, filled, ticket) =>
      var l := s.loops[id];
      var signal := l.todo[0];
      if Passes(c, l.snapshot, signal) && filled {
        PlacementKeepsCaps(c, was, s.account, l.snapshot, Position(ticket, signal.symbol), signal.otherGates, symbol);
      }
    case Closed(ps) => FewerKeepCaps(c, was, s.account, s.account - ps, symbol);
    case _ =>
  }

  lemma FewerKeepCaps(c: Caps, was: Account, now: Account, fewer: Account, symbol: string)
    requires WithinCaps(c, was, now, symbol) && fewer <= now
    ensures WithinCaps(c, was, fewer, symbol)
  {
    SubsetCounts(fewer, now, symbol);
  }

  /** However many loops run locked batches and however closes interleave, neither
      the total nor the symbol's count rises above its cap, provided that reads only
      fail while there is room to spare. */
  lemma {:induction false} CapsHoldUnderLock(c: Caps, was: Account, s: State, es: seq<Event>, symbol: string)
    requires Guarded(c, s, symbol) && WithinCaps(c, was, s.account, symbol)
    requires AllEnabled(c, true, s, es) && ReadsAreSafe(c, s, es, symbol)
    ensures Guarded(c, Run(c, true, s, es), symbol) && WithinCaps(c, was, Run(c, true, s, es).account, symbol)
    decreases |es|
  {
    hide Enabled, Apply, Guarded, WithinCaps, ReadIsSafe;
    if es != [] {
      StepKeepsGuard(c, s, es[0], symbol);
      StepKeepsCaps(c, was, s, es[0], symbol);
      CapsHoldUnderLock(c, was, Apply(c, true, s, es[0]), es[1..], symbol);
    }
  }

  /** From idle loops, the caps hold in every reachable state. */
  lemma CapsHoldFromIdle(c: Caps, s: State, es: seq<Event>, symbol: string)
    requires s.lock.None? && (forall i :: 0 <= i < |s.loops| ==> s.loops[i].Idle?)
    requires AllEnabled(c, true, s, es) && ReadsAreSafe(c, s, es, symbol)
    ensures WithinCaps(c, s.account, Run(c, true, s, es).account, symbol)
  {
    CapsHoldUnderLock(c, s.account, s, es, symbol);
  }

  predicate NoReadFails(es: seq<Event>) { forall i :: 0 <= i < |es| && es[i].Read? ==> es[i].ok }

  lemma {:induction false} SuccessfulReadsAreSafe(c: Caps, s: State, es: seq<Event>, symbol: string)
    requires AllEnabled(c, true, s, es) && NoReadFails(es)
    ensures ReadsAreSafe(c, s, es, symbol)
    decreases |es|
  {
    hide Enabled, Apply;
    if es != [] { SuccessfulReadsAreSafe(c, Apply(c, true, s, es[0]), es[1..], symbol); }
  }

  // ----- Reads that fail ------------------------------------------------------------------------

  lemma OneFresh(a: Account, p: Position)
    requires p !in a
    ensures |a + {p}| == |a| + 1 && SymbolCount(a + {p}, p.symbol) == SymbolCount(a, p.symbol) + 1
  {
    assert OfSymbol(a + {p}, p.symbol) == OfSymbol(a, p.symbol) + {p};
  }

  lemma PlacementFitsIffSpare(c: Caps, account: Account, p: Position)
    requires p !in account
    ensures WithinCaps(c, account, account + {p}, p.symbol) <==> Spare(c, account, p.symbol)
  {
    hide SymbolCount;
    OneFresh(account, p);
  }

  lemma {:induction false} TicketsBelow(a: Account) returns (n: nat)
    ensures forall p :: p in a ==> p.ticket < n
    decreases |a|
  {
    if a == {} {
      n := 0;
    } else {
      var p :| p in a;
      n := TicketsBelow(a - {p});
      if n <= p.ticket { n := p.ticket + 1; }
    }
  }

  /** k orders of the batch do not fill, and the next one does. */
  function BlindOrder(id: nat, k: nat, ticket: nat): seq<Event> {
    if k == 0 then [Decide(id, true, ticket)] else [Decide(id, false, 0)] + BlindOrder(id, k - 1, ticket)
  }

  lemma {:induction false} BlindReadsNothing(id: nat, k: nat, ticket: nat)
    ensures NoReadFails(BlindOrder(id, k, ticket))
  {
    if k > 0 { BlindReadsNothing(id, k - 1, ticket); }
  }

  lemma {:induction false} BlindOrderFills(c: Caps, s: State, id: nat, todo: seq<Signal>, k: nat, ticket: nat)
    returns (end: State)
    requires id < |s.loops| && s.loops[id] == Ready({}, todo) && k < |todo| && Passes(c, {}, todo[k])
    ensures Reaches(c, true, s, BlindOrder(id, k, ticket), end)
    ensures end.account == s.account + {Position(ticket, todo[k].symbol)}
    decreases k
  {
    hide Passes, Reaches;
    if k == 0 {
      end := State(s.account + {Position(ticket, todo[0].symbol)}, s.loops[id := Reading(todo[1..])], s.lock);
      NoEvents(c, end);
      RunCons(c, true, s, Decide(id, true, ticket), end, [], end);
      assert [Decide(id, true, ticket)] + [] == [Decide(id, true, ticket)];
    } else {
      var next := s.(loops := s.loops[id := Ready({}, todo[1..])]);
      assert todo[1..][k - 1] == todo[k];
      end := BlindOrderFills(c, next, id, todo[1..], k - 1, ticket);
      RunCons(c, true, s, Decide(id, false, 0), next, BlindOrder(id, k - 1, ticket), end);
    }
  }

  /** Every run of the protocol that goes on from this read, with no further read
      failing, keeps the caps. */
  ghost predicate CapsHoldAfter(c: Caps, s: State, read: Event, symbol: string) {
    forall es :: AllEnabled(c, true, s, [read] + es) && NoReadFails(es)
                 ==> WithinCaps(c, s.account, Run(c, true, s, [read] + es).account, symbol)
  }

  lemma SpareReadKeepsCaps(c: Caps, s: State, id: nat, es: seq<Event>, symbol: string)
    requires Guarded(c, s, symbol) && Spare(c, s.account, symbol)
    requires AllEnabled(c, true, s, [Read(id, false)] + es) && NoReadFails(es)
    ensures WithinCaps(c, s.account, Run(c, true, s, [Read(id, false)] + es).account, symbol)
  {
    hide Enabled, Apply, Spare, Guarded;
    var all := [Read(id, false)] + es;
    assert all[0] == Read(id, false) && all[1..] == es;
    SuccessfulReadsAreSafe(c, Apply(c, true, s, all[0]), es, symbol);
    CapsHoldUnderLock(c, s.account, s, all, symbol);
  }

  lemma BlindReadOverflows(c: Caps, s: State, id: nat, todo: seq<Signal>, k: nat)
    requires id < |s.loops| && s.loops[id] == Reading(todo) && k < |todo| && Passes(c, {}, todo[k])
    requires !Spare(c, s.account, todo[k].symbol)
    ensures !CapsHoldAfter(c, s, Read(id, false), todo[k].symbol)
  {
    hide Passes, Spare, WithinCaps;
    var ticket := TicketsBelow(s.account);
    var p, es := Position(ticket, todo[k].symbol), BlindOrder(id, k, ticket);
    var blind := s.(loops := s.loops[id := Ready({}, todo)]);
    var end := BlindOrderFills(c, blind, id, todo, k, ticket);
    BlindReadsNothing(id, k, ticket);
    RunCons(c, true, s, Read(id, false), blind, es, end);
    PlacementFitsIffSpare(c, s.account, p);
    assert !WithinCaps(c, s.account, Run(c, true, s, [Read(id, false)] + es).account, p.symbol);
  }

  /** Under the lock, in any guarded state and at any place in the batch: when a read
      fails, the caps of a symbol whose order still passes on an empty account hold
      in every run from there exactly when there was room to spare. */
  lemma FailedReadKeepsCapsIffSpare(c: Caps, s: State, id: nat, todo: seq<Signal>, k: nat)
    requires id < |s.loops| && s.loops[id] == Reading(todo) && k < |todo| && Passes(c, {}, todo[k])
    requires Guarded(c, s, todo[k].symbol)
    ensures CapsHoldAfter(c, s, Read(id, false), todo[k].symbol) <==> Spare(c, s.account, todo[k].symbol)
  {
    hide Passes, Spare, Guarded, WithinCaps, AllEnabled, Run;
    var symbol := todo[k].symbol;
    if Spare(c, s.account, symbol) {
      forall es | AllEnabled(c, true, s, [Read(id, false)] + es) && NoReadFails(es)
        ensures WithinCaps(c, s.account, Run(c, true, s, [Read(id, false)] + es).account, symbol)
      {
        SpareReadKeepsCaps(c, s, id, es, symbol);
      }
    } else {
      BlindReadOverflows(c, s, id, todo, k);
    }
  }

  // ----- Without the lock ------------------------------------------------------------------------

  function TwoIdle(account: Account): State { State(account, [Idle, Idle], None) }

  /** Both loops read before either places. */
  function Race(signal: Signal, t: nat, u: nat): seq<Event> {
    [Acquire(0, [signal]), Acquire(1, [signal]), Read(0, true), Read(1, true), Decide(0, true, t), Decide(1, true, u)]
  }

  /** The race's states, in order. */
  function RaceState(account: Account, signal: Signal, t: nat, u: nat, k: nat): State {
    var one := account + {Position(t, signal.symbol)};
    if k == 0 then TwoIdle(account)
    else if k == 1 then State(account, [Reading([signal]), Idle], None)
    else if k == 2 then State(account, [Reading([signal]), Reading([signal])], None)
    else if k == 3 then State(account, [Ready(account, [signal]), Reading([signal])], None)
    else if k == 4 then State(account, [Ready(account, [signal]), Ready(account, [signal])], None)
    else if k == 5 then State(one, [Reading([]), Ready(account, [signal])], None)
    else State(one + {Position(u, signal.symbol)}, [Reading([]), Reading([])], None)
  }

  lemma RaceStep(c: Caps, account: Account, signal: Signal, t: nat, u: nat, k: nat)
    requires k < 6 && Passes(c, account, signal)
    ensures Leads(c, false, RaceState(account, signal, t, u, k), Race(signal, t, u)[k],
                  RaceState(account, signal, t, u, k + 1))
  {
    hide Passes;
    assert [signal][1..] == [];
  }

  lemma {:induction false} RaceFrom(c: Caps, account: Account, signal: Signal, t: nat, u: nat, k: nat)
    requires k <= 6 && Passes(c, account, signal)
    ensures Reaches(c, false, RaceState(account, signal, t, u, k), Race(signal, t, u)[k..],
                    RaceState(account, signal, t, u, 6))
    decreases 6 - k
  {
    hide Passes, Leads, RaceState, Enabled, Apply;
    var es := Race(signal, t, u);
    if k == 6 {
      assert es[6..] == [];
    } else {
      RaceStep(c, account, signal, t, u, k);
      RaceFrom(c, account, signal, t, u, k + 1);
      RunCons(c, false, RaceState(account, signal, t, u, k), es[k], RaceState(account, signal, t, u, k + 1),
              es[k + 1..], RaceState(account, signal, t, u, 6));
      assert [es[k]] + es[k + 1..] == es[k..];
    }
  }

  /** Without the lock two loops break the total cap from any account one below it. */
  lemma WithoutLockCapIsBroken(c: Caps, account: Account, signal: Signal, t: nat, u: nat)
    requires c.guardian && |account| + 1 == c.maxTotal && Passes(c, account, signal)
    requires Position(t, signal.symbol) !in account && Position(u, signal.symbol) !in account && t != u
    ensures AllEnabled(c, false, TwoIdle(account), Race(signal, t, u))
    ensures |Run(c, false, TwoIdle(account), Race(signal, t, u)).account| == c.maxTotal + 1
  {
    hide Passes, AllEnabled, Run;
    RaceFrom(c, account, signal, t, u, 0);
    assert Race(signal, t, u)[0..] == Race(signal, t, u);
  }

  // ----- How many orders a batch places -----------------------------------------------------------

  /** How many more positions of a symbol the caps allow, with so many open in all and
      of the symbol; None where no cap applies. */
  function Room(c: Caps, total: nat, ofSymbol: nat): Option<int> {
    var guarded := if c.maxTotal - total < c.guardPerSymbol - ofSymbol then c.maxTotal - total
                   else c.guardPerSymbol - ofSymbol;
    var limited := c.perSymbol - ofSymbol;
    if c.guardian && c.perSymbol > 0 then Some(if guarded < limited then guarded else limited)
    else if c.guardian then Some(guarded)
    else if c.perSymbol > 0 then Some(limited)
    else None
  }

  function Placeable(room: Option<int>, orders: nat): nat {
    if room.None? || orders <= room.value then orders else if room.value > 0 then room.value else 0
  }

  /** A signal passes exactly where its other gates do and there is room. */
  lemma PassesIff(c: Caps, ps: Account, s: Signal)
    ensures Passes(c, ps, s)
       <==> s.otherGates && Placeable(Room(c, |ps|, |set p | p in ps && p.symbol == s.symbol|), 1) == 1
  {}

  /** Every signal is on this symbol and passes its other gates. */
  predicate AllOn(todo: seq<Signal>, symbol: string) {
    forall i :: 0 <= i < |todo| ==> todo[i] == Signal(symbol, true)
  }

  /** Every order fills under its own new ticket, every re-read succeeds and nothing
      closes meanwhile. */
  predicate Quiet(account: Account, turns: seq<Turn>) {
    && (forall i :: 0 <= i < |turns| ==>
          turns[i].before == {} && turns[i].after == {} && turns[i].filled && turns[i].reread)
    && (forall i, p :: 0 <= i < |turns| && p in account ==> turns[i].ticket != p.ticket)
    && (forall i, j :: 0 <= i < j < |turns| ==> turns[i].ticket != turns[j].ticket)
  }

  lemma QuietRest(account: Account, turns: seq<Turn>, symbol: string)
    requires Quiet(account, turns) && turns != []
    ensures Quiet(account, turns[1..]) && Quiet(account + {Position(turns[0].ticket, symbol)}, turns[1..])
    ensures Position(turns[0].ticket, symbol) !in account
  {
    var rest := turns[1..];
    assert forall i :: 0 <= i < |rest| ==> rest[i] == turns[i + 1];
  }

  lemma OneMoreOrder(c: Caps, total: nat, ofSymbol: nat, orders: nat)
    requires orders > 0
    ensures var room := Room(c, total, ofSymbol);
            Placeable(room, orders) == if Placeable(room, 1) == 1
                                       then 1 + Placeable(Room(c, total + 1, ofSymbol + 1), orders - 1)
                                       else Placeable(room, orders - 1)
  {}

  /** A batch of orders on one symbol, undisturbed, places exactly as many as every cap
      has room for, and all of them where there is room for all. */
  lemma {:induction false} BatchFillsTheRoom(
    c: Caps, account: Account, symbol: string, todo: seq<Signal>, turns: seq<Turn>)
    requires |todo| == |turns| && AllOn(todo, symbol) && Quiet(account, turns)
    ensures var n, b := Placeable(Room(c, |account|, SymbolCount(account, symbol)), |todo|),
                        Batch(c, account, account, todo, turns);
            && |b.placed| == n && |b.account| == |account| + n
            && SymbolCount(b.account, symbol) == SymbolCount(account, symbol) + n
    decreases |todo|
  {
    hide Room, Placeable, Passes, SymbolCount, Quiet;
    var total, ofSymbol := |account|, SymbolCount(account, symbol);
    if todo == [] {
      NoOrders(Room(c, total, ofSymbol));
    } else {
      var t, p := turns[0], Position(turns[0].ticket, symbol);
      assert todo[0] == Signal(symbol, true);
      QuietTurn(account, turns);
      QuietRest(account, turns, symbol);
      CountsOf(c, account, symbol);
      OneMoreOrder(c, total, ofSymbol, |todo|);
      if Passes(c, account, todo[0]) {
        OneFresh(account, p);
        assert account - {} + {p} - {} == account + {p};
        BatchFillsTheRoom(c, account + {p}, symbol, todo[1..], turns[1..]);
      } else {
        AtMostOne(Room(c, total, ofSymbol));
        assert account - {} == account;
        BatchFillsTheRoom(c, account, symbol, todo[1..], turns[1..]);
      }
    }
  }

  lemma QuietTurn(account: Account, turns: seq<Turn>)
    requires Quiet(account, turns) && turns != []
    ensures turns[0].before == {} && turns[0].after == {} && turns[0].filled && turns[0].reread
  {}

  lemma CountsOf(c: Caps, account: Account, symbol: string)
    ensures Passes(c, account, Signal(symbol, true))
       <==> Placeable(Room(c, |account|, SymbolCount(account, symbol)), 1) == 1
  {
    PassesIff(c, account, Signal(symbol, true));
  }

  lemma NoOrders(room: Option<int>)
    ensures Placeable(room, 0) == 0
  {}

  lemma AtMostOne(room: Option<int>)
    ensures Placeable(room, 1) <= 1
  {}

  // ----- Every signal is decided --------------------------------------------------------------------

  /** The signals of its batch that a loop has yet to decide. */
  function Left(l: Loop): nat {
    match l
    case Idle => 0
    case Reading(todo) => |todo|
    case Ready(_, todo) => |todo|
  }

  function Decided(es: seq<Event>, id: nat): nat {
    if es == [] then 0 else (if es[0].Decide? && es[0].id == id then 1 else 0) + Decided(es[1..], id)
  }

  function Brought(es: seq<Event>, id: nat): nat {
    if es == [] then 0 else (if es[0].Acquire? && es[0].id == id then |es[0].batch| else 0) + Brought(es[1..], id)
  }

  lemma StepDecides(c: Caps, locking: bool, s: State, e: Event, id: nat)
    requires Enabled(locking, s, e) && id < |s.loops|
    ensures |Apply(c, locking, s, e).loops| == |s.loops|
    ensures Left(Apply(c, locking, s, e).loops[id]) + (if e.Decide? && e.id == id then 1 else 0)
         == Left(s.loops[id]) + (if e.Acquire? && e.id == id then |e.batch| else 0)
  {
    hide Passes;
  }

  /** With the lock or without it, no signal of a loop's batches is dropped or decided
      twice: in every run, what it brought is what it decided and has left. */
  lemma {:induction false} EverySignalIsDecided(c: Caps, locking: bool, s: State, es: seq<Event>, id: nat)
    requires AllEnabled(c, locking, s, es) && id < |s.loops|
    ensures var end := Run(c, locking, s, es);
            |end.loops| == |s.loops| && Left(end.loops[id]) + Decided(es, id) == Left(s.loops[id]) + Brought(es, id)
    decreases |es|
  {
    hide Enabled, Apply, Left;
    if es != [] {
      StepDecides(c, locking, s, es[0], id);
      EverySignalIsDecided(c, locking, Apply(c, locking, s, es[0]), es[1..], id);
    }
  }
}
