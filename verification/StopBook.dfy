/** The loops over the paper positions and their management rows
    (manage_paper_positions and manage_partial_tp_paper in
    core/position_manager.py), and the no-loss lock of a whole book. */
module StopBook {
  import opened Numbers
  import opened ExitManager
  import opened StopEngine
  import opened StopLifecycle

  datatype Entry = Entry(ticket: string, pos: Position)

  /** The position list, the rows of position_management.json and the trades that
      partial take-profits recorded, by ticket. */
  datatype Book = Book(entries: seq<Entry>, rows: map<string, Row>, trades: seq<(string, Tp1Trade)>)

  /** What a pass does with a position: a signal reversal closes it; otherwise one
      management tick or one partial take-profit check. */
  datatype Feed = Reverse | Do(event: Event)

  type Feeds = string -> Feed

  function RowOf(rows: map<string, Row>, ticket: string): Row { if ticket in rows then rows[ticket] else FRESH_ROW }

  function HeldIn(rows: map<string, Row>, e: Entry): Held { Held(e.pos, RowOf(rows, e.ticket)) }

  predicate Throws(h: Held, f: Feed) { f.Do? && f.event.Manage? && Raises(InputOf(h, f.event)) }

  function TradesOf(ticket: string, h: Held, ev: Event): seq<(string, Tp1Trade)> {
    if ev.Manage? || Tp1TradeOf(h, ev).None? then [] else [(ticket, Tp1TradeOf(h, ev).value)]
  }

  /** The partial loop's flag: once set, positions at TP1 are closed whole. */
  function Widened(ev: Event, whole: bool): Event {
    if ev.TakePartial? then ev.(pcfg := ev.pcfg.(fullClose := ev.pcfg.fullClose || whole)) else ev
  }

  /** A position at TP1 that is closed whole sets the flag for the rest of the loop. */
  predicate SetsFlag(h: Held, ev: Event) { ev.TakePartial? && AtTp1(h, ev) && ClosesWhole(h.pos.size, ev.pcfg) }

  /** A pass under way: the book so far and the flag. */
  datatype Progress = Progress(book: Book, whole: bool)

  function Advance(done: Progress, e: Entry, f: Feed): Option<Progress> {
    var out, h := done.book, HeldIn(done.book.rows, e);
    if Throws(h, f) then None
    else if f.Reverse? then Some(done.(book := out.(rows := out.rows - {e.ticket})))
    else
      var ev := Widened(f.event, done.whole);
      var h' := Step(h, ev);
      Some(Progress(Book(out.entries + [Entry(e.ticket, h'.pos)], out.rows[e.ticket := h'.row],
                         out.trades + TradesOf(e.ticket, h, ev)),
                    done.whole || SetsFlag(h, ev)))
  }

  /** The pass over the first positions; None once computing a stop raises. */
  function Pass(b: Book, fs: Feeds): Option<Progress>
    decreases |b.entries|
  {
    if b.entries == [] then Some(Progress(b, false))
    else
      var n := |b.entries| - 1;
      var done := Pass(b.(entries := b.entries[..n]), fs);
      if done.None? then None else Advance(done.value, b.entries[n], fs(b.entries[n].ticket))
  }

  class PaperBook {
    var entries: seq<Entry>
    var rows: map<string, Row>
    var trades: seq<(string, Tp1Trade)>

    function View(): Book
      reads this
    {
      Book(entries, rows, trades)
    }

    /** One position's management tick; None where computing its stop raises. */
    method ManageOne(h: Held, ev: Event) returns (h': Option<Held>)
      requires ev.Manage?
      ensures h' == if Raises(InputOf(h, ev)) then None else Some(ManageStep(h, ev))
    {
      hide Raises, FinalRow, Settled, Actions, Returned, FallbackTp2;
      var pos, row := h.pos, h.row;
      if row.tp2 == 0.0 {
        var tp2 := FallbackTp2(pos, ev.tp2Rr);
        if tp2 > 0.0 { pos, row := pos.(tp2 := tp2), row.(tp2 := tp2); }
      }
      var out := ComputeManagedSl(Input(ev.cfg, pos, ev.quote, row));
      match out
      case Raised => h' := None;
      case Done(None, row', _) => h' := Some(Held(pos, row'));
      case Done(Some(s), row', _) => h' := Some(Held(pos.(sl := Round5(s)), row'));
    }

    /** One position's TP1 check: record the trade, lock the runner, latch the row.
        A position too small to split is closed whole, and leaves the flag set. */
    method PartialOne(h: Held, ev: Event, whole0: bool) returns (h': Held, trade: Option<Tp1Trade>, whole: bool)
      requires ev.TakePartial?
      ensures h' == PartialStep(h, Widened(ev, whole0)) && trade == Tp1TradeOf(h, Widened(ev, whole0))
      ensures whole == (whole0 || SetsFlag(h, Widened(ev, whole0)))
    {
      hide PartialCloseVolume, PostPartialLock, PartialRisk, Round, FallbackTp2, Banked;
      var p, row, c := h.pos, h.row, ev.pcfg;
      trade, whole := None, whole0;
      if !row.partialDone && TpReached(p.side, ev.price, p.tp1) {
        var tp2 := FallbackTp2(p, c.tp2Rr);
        if tp2 > 0.0 { p := p.(tp2 := tp2); }
        var v := p.size;
        if c.fullClose { whole := true; }
        if !whole {
          v := PartialCloseVolume(p.size, c.fraction, c.minRemain);
          if v <= 0.0 && p.size >= LOT { v, whole := p.size, true; }
        }
        if v > 0.0 {
          var lock := PostPartialLock(p.entry, PartialRisk(h), p.side, ev.atr, c.run);
          trade := Some(Tp1Trade(p.tp1, Round2(Banked(h.pos, v)), !whole));
          row := row.(partialDone := true, breakEven := true);
          if row.initialSl.None? && p.sl > 0.0 { row := row.(initialSl := Some(p.sl)); }
          var tp1 := if c.run.extendToTp2 && tp2 > 0.0 then tp2 else p.tp1;
          p := p.(size := Round2(p.size - v), sl := Round5(Toward(p.side, p.entry, lock)), tp1 := tp1, tp2 := tp2);
        }
      }
      h' := Held(p, row);
    }

    /** One pass over the book; nothing is stored when computing a stop raises. */
    method RunPass(fs: Feeds) returns (raised: bool)
      modifies this
      ensures raised == Pass(old(View()), fs).None?
      ensures raised ==> View() == old(View())
      ensures !raised ==> Pass(old(View()), fs).Some? && View() == Pass(old(View()), fs).value.book
    {
      hide Throws, Step, HeldIn, ManageStep, PartialStep, TradesOf, Widened, SetsFlag;
      ghost var b := View();
      var kept: seq<Entry>, table, made, whole := [], rows, trades, false;
      for i := 0 to |entries|
        invariant View() == b
        invariant Some(Progress(Book(kept, table, made), whole)) == Pass(b.(entries := b.entries[..i]), fs)
      {
        assert b.entries[..i + 1][..i] == b.entries[..i];
        var e, f := entries[i], fs(entries[i].ticket);
        if f.Reverse? {
          assert !Throws(HeldIn(table, e), f) by { NeverThrows(HeldIn(table, e), f); }
          table := table - {e.ticket};
        } else {
          var h, t, flag := StepOne(e.ticket, HeldIn(table, e), f.event, whole);
          if h.None? {
            PassFails(b, fs, i + 1);
            return true;
          }
          kept, table := kept + [Entry(e.ticket, h.value.pos)], table[e.ticket := h.value.row];
          made, whole := made + t, flag;
        }
      }
      assert b.entries[..|b.entries|] == b.entries;
      entries, rows, trades, raised := kept, table, made, false;
    }

    method StepOne(ticket: string, h: Held, ev: Event, whole0: bool)
      returns (h': Option<Held>, made: seq<(string, Tp1Trade)>, whole: bool)
      ensures h' == if Throws(h, Do(ev)) then None else Some(Step(h, Widened(ev, whole0)))
      ensures made == TradesOf(ticket, h, Widened(ev, whole0))
      ensures whole == (whole0 || SetsFlag(h, Widened(ev, whole0)))
    {
      hide Raises, ManageStep, PartialStep, Tp1TradeOf;
      made, whole := [], whole0;
      match ev {
        case Manage(_, _, _) => h' := ManageOne(h, ev);
        case TakePartial(_, _, _) =>
          var p, trade, flag := PartialOne(h, ev, whole0);
          h', whole := Some(p), flag;
          if trade.Some? { made := [(ticket, trade.value)]; }
      }
    }
  }

  lemma NeverThrows(h: Held, f: Feed)
    requires f.Reverse?
    ensures !Throws(h, f)
  {}

  lemma {:induction false} PassFails(b: Book, fs: Feeds, k: nat)
    requires k <= |b.entries| && Pass(b.(entries := b.entries[..k]), fs).None?
    ensures Pass(b, fs).None?
    decreases |b.entries|
  {
    hide Advance;
    if k == |b.entries| {
      assert b.entries[..k] == b.entries;
    } else {
      var n := |b.entries| - 1;
      assert b.entries[..n][..k] == b.entries[..k];
      PassFails(b.(entries := b.entries[..n]), fs, k);
    }
  }

  // ----- A pass is one step of each position --------------------------------------------

  predicate DistinctTickets(es: seq<Entry>) { forall i, j :: 0 <= i < j < |es| ==> es[i].ticket != es[j].ticket }

  /** Position i is at TP1 and, by its own size and configuration, closed whole. */
  predicate ClosesWholeAt(b: Book, fs: Feeds, i: nat)
    requires i < |b.entries|
  {
    var f := fs(b.entries[i].ticket);
    f.Do? && SetsFlag(HeldIn(b.rows, b.entries[i]), f.event)
  }

  /** A position before the n-th is closed whole. */
  predicate WholeBefore(b: Book, fs: Feeds, n: nat)
    requires n <= |b.entries|
  {
    exists i :: 0 <= i < n && ClosesWholeAt(b, fs, i)
  }

  /** q of the new book is position i of the old one after its own step, closed whole
      at TP1 where an earlier position was. */
  predicate IsStepOf(b: Book, fs: Feeds, i: nat, rows: map<string, Row>, q: Entry)
    requires i < |b.entries|
  {
    var p := b.entries[i];
    q.ticket == p.ticket && fs(p.ticket).Do?
    && HeldIn(rows, q) == Step(HeldIn(b.rows, p), Widened(fs(p.ticket).event, WholeBefore(b, fs, i)))
  }

  ghost predicate Stepped(b: Book, fs: Feeds, rows: map<string, Row>, q: Entry) {
    exists i :: 0 <= i < |b.entries| && IsStepOf(b, fs, i, rows, q)
  }

  predicate Mentions(es: seq<Entry>, ticket: string) { exists i :: 0 <= i < |es| && es[i].ticket == ticket }

  /** The new rows differ from the old at one ticket at most. */
  predicate SameElsewhere(rows: map<string, Row>, rows': map<string, Row>, ticket: string) {
    rows' == rows - {ticket} || (ticket in rows' && rows' == rows[ticket := rows'[ticket]])
  }

  lemma OtherRows(rows: map<string, Row>, rows': map<string, Row>, ticket: string, t: string)
    requires SameElsewhere(rows, rows', ticket) && t != ticket
    ensures RowOf(rows', t) == RowOf(rows, t)
  {}

  function Init(b: Book): Book
    requires b.entries != []
  {
    b.(entries := b.entries[..|b.entries| - 1])
  }

  lemma InitWholeBefore(b: Book, fs: Feeds, n: nat)
    requires b.entries != [] && n < |b.entries|
    ensures WholeBefore(Init(b), fs, n) == WholeBefore(b, fs, n)
    ensures forall i :: 0 <= i < n ==> ClosesWholeAt(Init(b), fs, i) == ClosesWholeAt(b, fs, i)
  {
    hide SetsFlag;
    assert forall i :: 0 <= i < n ==> ClosesWholeAt(Init(b), fs, i) == ClosesWholeAt(b, fs, i);
  }

  /** The flag does not change whether a position by itself is closed whole. */
  lemma FlagAfter(h: Held, ev: Event, whole: bool)
    ensures (whole || SetsFlag(h, Widened(ev, whole))) == (whole || SetsFlag(h, ev))
  {
    if ev.TakePartial? && !whole { assert Widened(ev, whole) == ev; }
  }

  lemma WholeSnoc(b: Book, fs: Feeds)
    requires b.entries != []
    ensures var n := |b.entries| - 1;
            WholeBefore(b, fs, n + 1) == (WholeBefore(b, fs, n) || ClosesWholeAt(b, fs, n))
  {
    hide ClosesWholeAt;
  }

  lemma SteppedStays(b: Book, fs: Feeds, before: Book, rows: map<string, Row>, q: Entry)
    requires b.entries != [] && DistinctTickets(b.entries)
    requires Stepped(Init(b), fs, before.rows, q)
    requires SameElsewhere(before.rows, rows, b.entries[|b.entries| - 1].ticket)
    ensures Stepped(b, fs, rows, q) && q.ticket != b.entries[|b.entries| - 1].ticket
  {
    hide Step, SameElsewhere, RowOf, WholeBefore, ClosesWholeAt, Widened;
    var i :| 0 <= i < |b.entries| - 1 && IsStepOf(Init(b), fs, i, before.rows, q);
    assert Init(b).entries[i] == b.entries[i] && q.ticket == b.entries[i].ticket;
    OtherRows(before.rows, rows, b.entries[|b.entries| - 1].ticket, q.ticket);
    InitWholeBefore(b, fs, i);
    assert IsStepOf(b, fs, i, rows, q);
  }

  /** What the pass over all but the last position leaves for the last one. */
  ghost predicate PassSpec(b: Book, fs: Feeds, out: Progress) {
    && DistinctTickets(out.book.entries)
    && (forall k :: 0 <= k < |out.book.entries| ==> Stepped(b, fs, out.book.rows, out.book.entries[k]))
    && (forall t :: !Mentions(b.entries, t) ==> RowOf(out.book.rows, t) == RowOf(b.rows, t))
    && out.whole == WholeBefore(b, fs, |b.entries|)
  }

  lemma AdvanceRows(done: Progress, e: Entry, f: Feed, out: Progress)
    requires Advance(done, e, f) == Some(out)
    ensures SameElsewhere(done.book.rows, out.book.rows, e.ticket)
    ensures f.Reverse? ==> out.book.entries == done.book.entries && out.whole == done.whole
  {
    hide Step, Throws, HeldIn, Widened, SetsFlag;
  }

  lemma AdvanceSteps(done: Progress, e: Entry, f: Feed, out: Progress) returns (q: Entry)
    requires Advance(done, e, f) == Some(out) && f.Do?
    ensures out.book.entries == done.book.entries + [q] && q.ticket == e.ticket
    ensures HeldIn(out.book.rows, q) == Step(HeldIn(done.book.rows, e), Widened(f.event, done.whole))
    ensures out.whole == (done.whole || SetsFlag(HeldIn(done.book.rows, e), f.event))
  {
    FlagAfter(HeldIn(done.book.rows, e), f.event, done.whole);
    hide Step, Throws, Widened, SetsFlag;
    q := Entry(e.ticket, Step(HeldIn(done.book.rows, e), Widened(f.event, done.whole)).pos);
  }

  lemma AdvanceKeepsSpec(b: Book, fs: Feeds, done: Progress, out: Progress)
    requires b.entries != [] && DistinctTickets(b.entries) && PassSpec(Init(b), fs, done)
    requires Advance(done, b.entries[|b.entries| - 1], fs(b.entries[|b.entries| - 1].ticket)) == Some(out)
    ensures PassSpec(b, fs, out)
  {
    hide Advance, Step, RowOf, Widened, SetsFlag, WholeBefore, SameElsewhere, Stepped;
    var n := |b.entries| - 1;
    var e := b.entries[n];
    var f := fs(e.ticket);
    assert forall i :: 0 <= i < n ==> Init(b).entries[i] == b.entries[i];
    assert !Mentions(Init(b).entries, e.ticket);
    assert HeldIn(done.book.rows, e) == HeldIn(b.rows, e);
    InitWholeBefore(b, fs, n);
    WholeSnoc(b, fs);
    AdvanceRows(done, e, f, out);
    forall k | 0 <= k < |done.book.entries|
      ensures Stepped(b, fs, out.book.rows, done.book.entries[k]) && done.book.entries[k].ticket != e.ticket
    {
      SteppedStays(b, fs, done.book, out.book.rows, done.book.entries[k]);
    }
    if f.Do? {
      var q := AdvanceSteps(done, e, f, out);
      assert IsStepOf(b, fs, n, out.book.rows, q);
      IsStepped(b, fs, n, out.book.rows, q);
    }
    forall t | !Mentions(b.entries, t) ensures RowOf(out.book.rows, t) == RowOf(b.rows, t) {
      assert b.entries[n].ticket != t && !Mentions(Init(b).entries, t);
      OtherRows(done.book.rows, out.book.rows, e.ticket, t);
    }
  }

  lemma IsStepped(b: Book, fs: Feeds, i: nat, rows: map<string, Row>, q: Entry)
    requires i < |b.entries| && IsStepOf(b, fs, i, rows, q)
    ensures Stepped(b, fs, rows, q)
  {
    hide IsStepOf;
  }

  /** The pass as positions see it: every position left is its own step, closed
      whole at TP1 exactly where it would be by itself or an earlier position was;
      rows of other tickets are untouched. */
  lemma {:induction false} PassStepsEachPosition(b: Book, fs: Feeds)
    requires DistinctTickets(b.entries) && Pass(b, fs).Some?
    ensures PassSpec(b, fs, Pass(b, fs).value)
    decreases |b.entries|
  {
    hide Advance, PassSpec;
    if b.entries == [] {
      NothingStepped(b, fs);
    } else {
      PassStepsEachPosition(Init(b), fs);
      AdvanceKeepsSpec(b, fs, Pass(Init(b), fs).value, Pass(b, fs).value);
    }
  }

  lemma NothingStepped(b: Book, fs: Feeds)
    requires b.entries == []
    ensures PassSpec(b, fs, Progress(b, false))
  {}

  /** A position disturbs later ones in one way only: closed whole at TP1, it makes
      every later position at TP1 close whole, whatever its size and the configured
      fraction.  Otherwise a position that is left is as if it were alone. */
  lemma PositionsDisturbByClosingWhole(b: Book, fs: Feeds, i: nat, q: Entry)
    requires DistinctTickets(b.entries) && Pass(b, fs).Some? && i < |b.entries|
    requires q in Pass(b, fs).value.book.entries && q.ticket == b.entries[i].ticket
    ensures fs(q.ticket).Do?
    ensures var h, ev := HeldIn(b.rows, b.entries[i]), fs(q.ticket).event;
            if WholeBefore(b, fs, i) && ev.TakePartial? && AtTp1(h, ev)
            then h.pos.size > 0.0 ==> q.pos.size == 0.0
            else HeldIn(Pass(b, fs).value.book.rows, q) == Step(h, ev)
  {
    hide Pass, RowOf, WholeBefore, DistinctTickets, PartialLock, FallbackTp2, Round5, ManageStep, Tp1TradeOf;
    PassStepsEachPosition(b, fs);
    var out := Pass(b, fs).value.book;
    assert Stepped(b, fs, out.rows, q);
    var k :| 0 <= k < |b.entries| && IsStepOf(b, fs, k, out.rows, q);
    assert k == i by { SameTicket(b.entries, i, k); }
    NothingLeft(HeldIn(b.rows, b.entries[i]).pos.size);
  }

  lemma SameTicket(es: seq<Entry>, i: nat, k: nat)
    requires DistinctTickets(es) && i < |es| && k < |es| && es[i].ticket == es[k].ticket
    ensures i == k
  {}

  lemma NothingLeft(size: real)
    ensures Round2(size - size) == 0.0
  {
    assert RoundInt(0.0) == 0;
  }

  const HALF_AT_TP1: Feeds :=
    _ => Do(TakePartial(PartialCfg(RunnerCfg(0.35, 0.15, 0.65, true), false, 0.5, 0.01, 2.5), 0.4, 0.1))

  function Short(ticket: string, size: real): Entry { Entry(ticket, Position(Sell, 1.0, 0.99, 0.5, 0.0, size)) }

  /** Half of 1.0 lots stays open at TP1, but none after a position of 0.01 lots. */
  lemma SmallPositionClosesTheNextWhole(ticket: string)
    ensures var e, fs := Short(ticket, 1.0), HALF_AT_TP1;
            var b := Book([Short(ticket + "0", 0.01), e], map[], []);
            && DistinctTickets(b.entries) && WholeBefore(b, fs, 1)
            && AtTp1(HeldIn(b.rows, e), fs(ticket).event)
            && Step(HeldIn(b.rows, e), fs(ticket).event).pos.size == 0.5
  {
    var e, fs := Short(ticket, 1.0), HALF_AT_TP1;
    var b := Book([Short(ticket + "0", 0.01), e], map[], []);
    var ev := fs(ticket).event;
    assert |ticket + "0"| == |ticket| + 1;
    hide PartialLock, FallbackTp2, Round5;
    assert PartialCloseVolume(0.01, 0.5, 0.01) == 0.0 by { assert LotSteps(0.005, LOT) == 0; }
    assert PartialCloseVolume(1.0, 0.5, 0.01) == 0.5 by { assert LotSteps(0.5, LOT) == 50; }
    assert Round2(1.0 - 0.5) == 0.5 by { assert RoundInt(50.0) == 50; }
    assert ClosesWholeAt(b, fs, 0);
  }

  // ----- The lock of a whole book ---------------------------------------------------------

  predicate AllLocked(b: Book) {
    forall i :: 0 <= i < |b.entries| ==> WellKept(HeldIn(b.rows, b.entries[i])) && Locked(HeldIn(b.rows, b.entries[i]))
  }

  predicate AllSound(b: Book, fs: Feeds) {
    forall i :: 0 <= i < |b.entries| ==>
      var f := fs(b.entries[i].ticket);
      f.Reverse? || Sound(HeldIn(b.rows, b.entries[i]), f.event)
  }

  lemma PassKeepsLock(b: Book, fs: Feeds)
    requires DistinctTickets(b.entries) && AllLocked(b) && AllSound(b, fs) && Pass(b, fs).Some?
    ensures DistinctTickets(Pass(b, fs).value.book.entries) && AllLocked(Pass(b, fs).value.book)
  {
    hide Step, WellKept, Locked, Sound, RowOf, Pass, HeldIn, WholeBefore, Widened;
    PassStepsEachPosition(b, fs);
    var out := Pass(b, fs).value.book;
    forall k | 0 <= k < |out.entries|
      ensures WellKept(HeldIn(out.rows, out.entries[k])) && Locked(HeldIn(out.rows, out.entries[k]))
    {
      assert Stepped(b, fs, out.rows, out.entries[k]);
      var i :| 0 <= i < |b.entries| && IsStepOf(b, fs, i, out.rows, out.entries[k]);
      var h, ev, whole := HeldIn(b.rows, b.entries[i]), fs(b.entries[i].ticket).event, WholeBefore(b, fs, i);
      WidenedIsSound(h, ev, whole);
      StepKeepsWellKept(h, Widened(ev, whole));
      StepKeepsLocked(h, Widened(ev, whole));
    }
  }

  /** Closing whole does not change the stop that a partial locks. */
  lemma WidenedIsSound(h: Held, ev: Event, whole: bool)
    requires Sound(h, ev)
    ensures Sound(h, Widened(ev, whole))
  {
    hide StopsStayPositive, Raises, PostPartialLock, PartialRisk;
  }

  lemma StepKeepsLocked(h: Held, ev: Event)
    requires WellKept(h) && Locked(h) && Sound(h, ev)
    ensures Locked(Step(h, ev))
  {
    hide WellKept, Sound, Locked, ManageStep, PartialStep;
    if ev.Manage? { ManageKeepsLock(h, ev); } else { PartialKeepsLock(h, ev); }
  }

  /** A pass that raised leaves the book as it was. */
  function Passed(b: Book, fs: Feeds): Book {
    var r := Pass(b, fs);
    if r.None? then b else r.value.book
  }

  function Passes(b: Book, all: seq<Feeds>): Book {
    if all == [] then b else Passed(Passes(b, all[..|all| - 1]), all[|all| - 1])
  }

  /** Once every position of a book is locked, every position left in it after any
      sequence of management and partial passes is locked. */
  lemma {:induction false} BookStaysLocked(b: Book, all: seq<Feeds>)
    requires DistinctTickets(b.entries) && AllLocked(b)
    requires forall n :: 0 <= n < |all| ==> AllSound(Passes(b, all[..n]), all[n])
    ensures DistinctTickets(Passes(b, all).entries) && AllLocked(Passes(b, all))
  {
    hide AllLocked, AllSound, DistinctTickets, Pass;
    if all != [] {
      var n := |all| - 1;
      assert forall k :: 0 <= k <= n ==> all[..n][..k] == all[..k];
      BookStaysLocked(b, all[..n]);
      var now := Passes(b, all[..n]);
      assert AllSound(now, all[n]);
      if Pass(now, all[n]).Some? { PassKeepsLock(now, all[n]); }
    }
  }
}
