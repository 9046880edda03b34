/** The exact book that a pass over the paper positions leaves: which positions stay and
    in which order, every row, and every trade booked. */
module BookLaws {
  import opened Numbers
  import opened ExitManager
  import opened StopEngine
  import opened StopLifecycle
  import opened StopBook
  import opened LifecycleLaws

  /** Position i and its row; a position without a row starts with nothing latched. */
  function HeldAt(b: Book, i: nat): Held
    requires i < |b.entries|
  {
    var e := b.entries[i];
    Held(e.pos, if e.ticket in b.rows then b.rows[e.ticket]
                else Row(None, false, false, false, false, None, None, None, None, None, 0.0, 0.0))
  }

  function FeedAt(b: Book, fs: Feeds, i: nat): Feed
    requires i < |b.entries|
  {
    fs(b.entries[i].ticket)
  }

  /** Position i first reaches TP1 in a partial pass and no part of it can be left. */
  predicate GoesWhole(b: Book, fs: Feeds, i: nat)
    requires i < |b.entries|
  {
    var f, h := FeedAt(b, fs, i), HeldAt(b, i);
    f.Do? && f.event.TakePartial? && ReachesFirst(h, f.event.price) && AllOrNothing(h.pos.size, f.event.pcfg)
  }

  predicate WentWhole(b: Book, fs: Feeds, n: nat)
    requires n <= |b.entries|
  {
    exists j :: 0 <= j < n && GoesWhole(b, fs, j)
  }

  /** What happens to position i: its own event; after a position that went whole, a
      partial that closes whole. */
  function EventAt(b: Book, fs: Feeds, i: nat): Event
    requires i < |b.entries| && FeedAt(b, fs, i).Do?
  {
    match FeedAt(b, fs, i).event
    case Manage(cfg, q, rr) => Manage(cfg, q, rr)
    case TakePartial(c, price, atr) =>
      TakePartial(if WentWhole(b, fs, i) then c.(fullClose := true) else c, price, atr)
  }

  function After(b: Book, fs: Feeds, i: nat): Held
    requires i < |b.entries| && FeedAt(b, fs, i).Do?
  {
    Step(HeldAt(b, i), EventAt(b, fs, i))
  }

  /** Computing the stop of position i raises. */
  predicate RaisesAt(b: Book, fs: Feeds, i: nat)
    requires i < |b.entries|
  {
    var f := FeedAt(b, fs, i);
    f.Do? && f.event.Manage? && Managed(InputOf(HeldAt(b, i), f.event)).Raised?
  }

  predicate AnyRaises(b: Book, fs: Feeds, n: nat)
    requires n <= |b.entries|
  {
    exists i :: 0 <= i < n && RaisesAt(b, fs, i)
  }

  /** The first n positions in order, each after its own step, without the reversed ones. */
  function Kept(b: Book, fs: Feeds, n: nat): seq<Entry>
    requires n <= |b.entries|
  {
    if n == 0 then []
    else Kept(b, fs, n - 1)
         + if FeedAt(b, fs, n - 1).Reverse? then [] else [Entry(b.entries[n - 1].ticket, After(b, fs, n - 1).pos)]
  }

  /** The trade of each partial among the first n positions, in order. */
  function Made(b: Book, fs: Feeds, n: nat): seq<(string, Tp1Trade)>
    requires n <= |b.entries|
  {
    if n == 0 then []
    else Made(b, fs, n - 1)
         + if FeedAt(b, fs, n - 1).Reverse? then []
           else MadeBy(b.entries[n - 1].ticket, HeldAt(b, n - 1), EventAt(b, fs, n - 1))
  }

  function MadeBy(ticket: string, h: Held, ev: Event): seq<(string, Tp1Trade)> {
    if ev.TakePartial? then (match Tp1TradeOf(h, ev) case Some(t) => [(ticket, t)] case None => []) else []
  }

  /** Position i's row is the one after its step, and gone where it was reversed. */
  predicate RowIs(b: Book, fs: Feeds, i: nat, rows: map<string, Row>)
    requires i < |b.entries|
  {
    var t := b.entries[i].ticket;
    if FeedAt(b, fs, i).Reverse? then t !in rows else t in rows && rows[t] == After(b, fs, i).row
  }

  predicate Untouched(t: string, old': map<string, Row>, rows: map<string, Row>) {
    (t in rows <==> t in old') && (t in rows ==> rows[t] == old'[t])
  }

  ghost predicate IsPassed(b: Book, fs: Feeds, n: nat, out: Progress)
    requires n <= |b.entries|
  {
    && out.book.entries == Kept(b, fs, n) && out.book.trades == b.trades + Made(b, fs, n)
    && out.whole == WentWhole(b, fs, n)
    && (forall i :: 0 <= i < n ==> RowIs(b, fs, i, out.book.rows))
    && (forall t :: !Mentions(b.entries[..n], t) ==> Untouched(t, b.rows, out.book.rows))
  }

  // ----- One position more ----------------------------------------------------------

  lemma AtTp1Iff(h: Held, ev: Event)
    requires ev.TakePartial?
    ensures AtTp1(h, ev) <==> ReachesFirst(h, ev.price)
  {}

  lemma SetsFlagIff(h: Held, ev: Event)
    ensures SetsFlag(h, ev) <==> ev.TakePartial? && ReachesFirst(h, ev.price) && AllOrNothing(h.pos.size, ev.pcfg)
  {
    hide PartialCloseVolume, ReachesFirst, AtTp1;
    if ev.TakePartial? { AtTp1Iff(h, ev); }
  }

  lemma WidenedIs(b: Book, fs: Feeds, i: nat)
    requires i < |b.entries| && FeedAt(b, fs, i).Do?
    ensures Widened(FeedAt(b, fs, i).event, WentWhole(b, fs, i)) == EventAt(b, fs, i)
  {
    hide GoesWhole;
  }

  lemma HeldIs(b: Book, fs: Feeds, i: nat, rows: map<string, Row>)
    requires i < |b.entries| && Untouched(b.entries[i].ticket, b.rows, rows)
    ensures HeldIn(rows, b.entries[i]) == HeldAt(b, i)
    ensures Throws(HeldAt(b, i), FeedAt(b, fs, i)) <==> RaisesAt(b, fs, i)
  {
    hide Raises, FinalRow, Settled, Actions, InputOf;
  }

  lemma TradesAre(ticket: string, h: Held, ev: Event)
    ensures TradesOf(ticket, h, ev) == MadeBy(ticket, h, ev)
  {
    hide Tp1TradeOf;
  }

  lemma WentWholeSnoc(b: Book, fs: Feeds, n: nat)
    requires n < |b.entries|
    ensures WentWhole(b, fs, n + 1) <==> WentWhole(b, fs, n) || GoesWhole(b, fs, n)
  {
    hide GoesWhole;
  }

  lemma MentionsSnoc(es: seq<Entry>, n: nat, t: string)
    requires n < |es|
    ensures Mentions(es[..n + 1], t) <==> Mentions(es[..n], t) || es[n].ticket == t
  {
    if i :| 0 <= i < n && es[..n][i].ticket == t { assert es[..n + 1][i].ticket == t; }
    if es[n].ticket == t { assert es[..n + 1][n].ticket == t; }
    var longer := es[..n + 1];
    if i :| 0 <= i < |longer| && longer[i].ticket == t { assert i < n ==> es[..n][i].ticket == t; }
  }

  lemma AdvanceReverses(done: Progress, e: Entry)
    ensures Advance(done, e, Reverse) == Some(done.(book := done.book.(rows := done.book.rows - {e.ticket})))
  {}

  lemma AdvanceDoes(done: Progress, e: Entry, ev: Event, h: Held, own: Event)
    requires HeldIn(done.book.rows, e) == h && !Throws(h, Do(own)) && ev == Widened(own, done.whole)
    ensures var next := Advance(done, e, Do(own));
            && next.Some?
            && next.value.book.entries == done.book.entries + [Entry(e.ticket, Step(h, ev).pos)]
            && next.value.book.rows == done.book.rows[e.ticket := Step(h, ev).row]
            && next.value.book.trades == done.book.trades + TradesOf(e.ticket, h, ev)
            && next.value.whole == (done.whole || SetsFlag(h, ev))
  {
    hide Step, Throws, HeldIn, TradesOf, Widened, SetsFlag;
  }

  lemma RowsAfter(b: Book, fs: Feeds, n: nat, before: map<string, Row>, rows: map<string, Row>)
    requires n < |b.entries| && DistinctTickets(b.entries)
    requires forall i :: 0 <= i < n ==> RowIs(b, fs, i, before)
    requires forall t :: !Mentions(b.entries[..n], t) ==> Untouched(t, b.rows, before)
    requires if FeedAt(b, fs, n).Reverse? then rows == before - {b.entries[n].ticket}
             else rows == before[b.entries[n].ticket := After(b, fs, n).row]
    ensures forall i :: 0 <= i < n + 1 ==> RowIs(b, fs, i, rows)
    ensures forall t :: !Mentions(b.entries[..n + 1], t) ==> Untouched(t, b.rows, rows)
  {
    hide After, FeedAt, Mentions;
    forall i | 0 <= i < n + 1 ensures RowIs(b, fs, i, rows) {
      assert i < n ==> b.entries[i].ticket != b.entries[n].ticket && RowIs(b, fs, i, before);
    }
    forall t | !Mentions(b.entries[..n + 1], t) ensures Untouched(t, b.rows, rows) {
      MentionsSnoc(b.entries, n, t);
    }
  }

  lemma NotYetMentioned(es: seq<Entry>, n: nat)
    requires n < |es| && DistinctTickets(es)
    ensures !Mentions(es[..n], es[n].ticket)
  {}

  /** A position that goes whole is the same with the flag and without. */
  lemma FlagIs(b: Book, fs: Feeds, n: nat)
    requires n < |b.entries| && FeedAt(b, fs, n).Do?
    ensures (WentWhole(b, fs, n) || SetsFlag(HeldAt(b, n), EventAt(b, fs, n))) == WentWhole(b, fs, n + 1)
  {
    WentWholeSnoc(b, fs, n);
    SetsFlagIff(HeldAt(b, n), EventAt(b, fs, n));
    hide WentWhole, SetsFlag, ReachesFirst, AllOrNothing, HeldAt;
  }

  lemma DoneSnoc(b: Book, fs: Feeds, n: nat, done: Progress)
    requires n < |b.entries| && DistinctTickets(b.entries) && IsPassed(b, fs, n, done) && FeedAt(b, fs, n).Do?
    ensures var next := Advance(done, b.entries[n], FeedAt(b, fs, n));
            if RaisesAt(b, fs, n) then next.None? else next.Some? && IsPassed(b, fs, n + 1, next.value)
  {
    var e, f := b.entries[n], FeedAt(b, fs, n);
    NotYetMentioned(b.entries, n);
    assert Untouched(e.ticket, b.rows, done.book.rows);
    hide HeldAt, HeldIn, Throws, RaisesAt, GoesWhole, WentWhole, EventAt, Step, TradesOf, MadeBy, Mentions, Widened,
      SetsFlag, DistinctTickets, RowIs, Untouched, FeedAt;
    HeldIs(b, fs, n, done.book.rows);
    if RaisesAt(b, fs, n) {
      AdvanceThrows(done, e, f, HeldAt(b, n));
    } else {
      var h, ev := HeldAt(b, n), EventAt(b, fs, n);
      WidenedIs(b, fs, n);
      hide Advance;
      AdvanceDoes(done, e, ev, h, f.event);
      TradesAre(e.ticket, h, ev);
      FlagIs(b, fs, n);
      RowsAfter(b, fs, n, done.book.rows, Advance(done, e, f).value.book.rows);
    }
  }

  lemma AdvanceThrows(done: Progress, e: Entry, f: Feed, h: Held)
    requires HeldIn(done.book.rows, e) == h && Throws(h, f)
    ensures Advance(done, e, f).None?
  {
    hide Throws, HeldIn, Step;
  }

  lemma ReversedSnoc(b: Book, fs: Feeds, n: nat, done: Progress)
    requires n < |b.entries| && DistinctTickets(b.entries) && IsPassed(b, fs, n, done) && FeedAt(b, fs, n).Reverse?
    ensures var next := Advance(done, b.entries[n], FeedAt(b, fs, n));
            !RaisesAt(b, fs, n) && next.Some? && IsPassed(b, fs, n + 1, next.value)
  {
    var e := b.entries[n];
    WentWholeSnoc(b, fs, n);
    assert !GoesWhole(b, fs, n) && !RaisesAt(b, fs, n);
    AdvanceReverses(done, e);
    hide HeldAt, GoesWhole, WentWhole, EventAt, After, Mentions, DistinctTickets, RowIs, Untouched, Advance;
    RowsAfter(b, fs, n, done.book.rows, done.book.rows - {e.ticket});
  }

  lemma AnyRaisesSnoc(b: Book, fs: Feeds, n: nat)
    requires n < |b.entries|
    ensures AnyRaises(b, fs, n + 1) <==> AnyRaises(b, fs, n) || RaisesAt(b, fs, n)
  {
    hide RaisesAt;
  }

  function Prefix(b: Book, n: nat): Book
    requires n <= |b.entries|
  {
    b.(entries := b.entries[..n])
  }

  lemma PassPrefix(b: Book, fs: Feeds, n: nat)
    requires n < |b.entries|
    ensures Pass(Prefix(b, n + 1), fs)
         == match Pass(Prefix(b, n), fs)
            case None => None
            case Some(done) => Advance(done, b.entries[n], FeedAt(b, fs, n))
  {
    hide Advance;
    assert b.entries[..n + 1][..n] == b.entries[..n];
    assert Prefix(b, n + 1).(entries := b.entries[..n]) == Prefix(b, n);
  }

  lemma PassNone(b: Book, fs: Feeds)
    ensures Pass(Prefix(b, 0), fs).Some? && IsPassed(b, fs, 0, Pass(Prefix(b, 0), fs).value) && !AnyRaises(b, fs, 0)
  {
    hide Advance;
  }

  lemma {:induction false} PrefixIs(b: Book, fs: Feeds, n: nat)
    requires DistinctTickets(b.entries) && n <= |b.entries|
    ensures var p := Pass(Prefix(b, n), fs);
            if AnyRaises(b, fs, n) then p.None? else p.Some? && IsPassed(b, fs, n, p.value)
  {
    hide *;
    if n == 0 {
      PassNone(b, fs);
    } else {
      PrefixIs(b, fs, n - 1);
      PassPrefix(b, fs, n - 1);
      AnyRaisesSnoc(b, fs, n - 1);
      var done := Pass(Prefix(b, n - 1), fs);
      if done.Some? {
        if FeedAt(b, fs, n - 1).Do? {
          DoneSnoc(b, fs, n - 1, done.value);
        } else {
          ReversedSnoc(b, fs, n - 1, done.value);
        }
      }
    }
  }

  /** A pass raises exactly where computing one position's stop does.  Else it leaves
      every position that was not reversed, in order and after its own step; their
      rows, no row for the reversed ones and every other row as it was; and it adds
      the trade of each partial. */
  lemma PassIs(b: Book, fs: Feeds)
    requires DistinctTickets(b.entries)
    ensures var n := |b.entries|;
            if AnyRaises(b, fs, n) then Pass(b, fs).None?
            else Pass(b, fs).Some? && IsPassed(b, fs, n, Pass(b, fs).value)
  {
    assert b.entries[..|b.entries|] == b.entries;
    hide Pass, IsPassed, AnyRaises, DistinctTickets;
    PrefixIs(b, fs, |b.entries|);
  }
}
