/** What a read-back does to a configuration: the stored patches that are judged safe
    arrive, in order, and nothing else changes but the capped stop. */
module LearningLaws {
  import opened Numbers
  import opened ConfigProposal
  import opened LearningOverrides

  // ----- The writes of the safe patches ----------------------------------------------

  /** The ops of the patches that are judged safe, in stored order. */
  function SafeOps(es: seq<Entry>): seq<Op> {
    if es == [] then []
    else
      var e := es[|es| - 1];
      SafeOps(es[..|es| - 1]) + if IsDangerous(e.ops, e.reviewed) == Safe then e.ops else []
  }

  function SafeIds(es: seq<Entry>): seq<Option<string>> {
    if es == [] then []
    else
      var e := es[|es| - 1];
      SafeIds(es[..|es| - 1]) + if IsDangerous(e.ops, e.reviewed) == Safe then [e.id] else []
  }

  /** A read-back reports exactly the safe patches as applied, in order. */
  lemma {:induction false} AppliedAreSafe(c: Json, es: seq<Entry>)
    requires Fold(c, es).Merged?
    ensures Fold(c, es).applied == SafeIds(es)
  {
    hide IsDangerous, Capped, ApplyOps;
    if es != [] { AppliedAreSafe(c, es[..|es| - 1]); }
  }

  lemma {:induction false} OpsConcat(c: Json, a: seq<Op>, b: seq<Op>)
    ensures ApplyOps(c, a + b) == ApplyOps(ApplyOps(c, a), b)
  {
    hide SetPath;
    if b == [] {
      assert a + b == a;
    } else {
      var n := |b| - 1;
      OpsConcat(c, a, b[..n]);
      assert (a + b)[..|a| + n] == a + b[..n];
    }
  }

  // ----- Equal but for the capped stop ---------------------------------------------------

  /** The two are equal, except that at the path both may hold different values that are
      no objects. */
  ghost predicate EqualBut(a: Json, b: Json, path: Path)
    decreases |path|
  {
    a == b
    || if path == [] then !a.Obj? && !b.Obj?
       else
         && a.Obj? && b.Obj? && path[0] in a.fields && path[0] in b.fields
         && (forall k :: k != path[0] ==> (k in a.fields <==> k in b.fields))
         && (forall k :: k != path[0] && k in a.fields ==> a.fields[k] == b.fields[k])
         && EqualBut(a.fields[path[0]], b.fields[path[0]], path[1..])
  }

  /** The same write keeps them so. */
  lemma {:induction false} WriteKeepsEqual(a: Json, b: Json, path: Path, q: Path, v: Json)
    requires EqualBut(a, b, path)
    ensures EqualBut(SetPath(a, q, v), SetPath(b, q, v), path)
    decreases |path|
  {
    if a != b && path != [] && q != [] && |q| > 1 && q[0] == path[0] {
      WriteKeepsEqual(a.fields[path[0]], b.fields[path[0]], path[1..], q[1..], v);
    }
  }

  lemma {:induction false} OpsKeepEqual(a: Json, b: Json, path: Path, ops: seq<Op>)
    requires EqualBut(a, b, path)
    ensures EqualBut(ApplyOps(a, ops), ApplyOps(b, ops), path)
  {
    hide EqualBut, SetPath;
    if ops != [] {
      var n := |ops| - 1;
      OpsKeepEqual(a, b, path, ops[..n]);
      WriteKeepsEqual(ApplyOps(a, ops[..n]), ApplyOps(b, ops[..n]), path, ops[n].path, ops[n].value);
    }
  }

  /** What is read at a path incomparable with theirs is the same. */
  lemma {:induction false} EqualReads(a: Json, b: Json, path: Path, p: Path)
    requires EqualBut(a, b, path) && Incomparable(path, p)
    ensures Get(a, p) == Get(b, p)
    decreases |path|
  {
    if a != b && p[0] != path[0] {
      assert p[0] in a.fields <==> p[0] in b.fields;
    } else if a != b {
      assert path == [path[0]] + path[1..] && p == [p[0]] + p[1..];
      assert Incomparable(path[1..], p[1..]);
      EqualReads(a.fields[p[0]], b.fields[p[0]], path[1..], p[1..]);
    }
  }

  lemma {:induction false} EqualTrans(a: Json, b: Json, c: Json, path: Path)
    requires EqualBut(a, b, path) && EqualBut(b, c, path)
    ensures EqualBut(a, c, path)
    decreases |path|
  {
    if a != b && b != c && path != [] {
      EqualTrans(a.fields[path[0]], b.fields[path[0]], c.fields[path[0]], path[1..]);
    }
  }

  /** Writing a value that is no object over one that is none changes nothing else. */
  lemma {:induction false} LeafWrite(c: Json, path: Path, v: Json)
    requires path != [] && Get(c, path).Some? && !Get(c, path).value.Obj? && !v.Obj?
    ensures EqualBut(SetPath(c, path, v), c, path)
    decreases |path|
  {
    if |path| > 1 {
      LeafWrite(c.fields[path[0]], path[1..], v);
    } else {
      assert path[1..] == [];
    }
  }

  lemma StopIsALeaf(c: Json)
    requires CurrentSl(c).Some? && FloatOf(CurrentSl(c).value).Some?
    ensures Get(c, SL_ATR) == Some(CurrentSl(c).value) && !CurrentSl(c).value.Obj?
  {
    assert SL_ATR[1..] == ["sl_tp", "sl_atr_mult"] && SL_ATR[1..][1..] == ["sl_atr_mult"];
    assert SL_ATR[1..][1..][1..] == [];
    var sl := CurrentSl(c).value;
    var trading := c.fields["trading"];
    assert Get(trading.fields["sl_tp"], ["sl_atr_mult"]) == Some(sl);
    assert Get(trading, ["sl_tp", "sl_atr_mult"]) == Some(sl);
  }

  lemma CapTouchesStopOnly(c: Json)
    requires Capped(c).Some?
    ensures EqualBut(Capped(c).value, c, SL_ATR)
  {
    hide EqualBut, SetPath, Get;
    var sl := CurrentSl(c).value;
    if !sl.Null? && FloatOf(sl).value > MAX_SL_ATR {
      StopIsALeaf(c);
      LeafWrite(c, SL_ATR, Num(MAX_SL_ATR));
    } else {
      SameIsEqual(c);
    }
  }

  lemma SameIsEqual(c: Json)
    ensures EqualBut(c, c, SL_ATR)
  {}

  // ----- What arrives ------------------------------------------------------------------------

  /** A read-back is the safe patches' writes in stored order, but for the number that
      the cap holds the stop multiple to. */
  lemma {:induction false} ReadBackIsSafeOps(c: Json, es: seq<Entry>)
    requires Fold(c, es).Merged?
    ensures EqualBut(Fold(c, es).config, ApplyOps(c, SafeOps(es)), SL_ATR)
  {
    hide EqualBut, IsDangerous, Capped, ApplyOps;
    if es == [] {
      NoOps(c);
    } else {
      var before, e := es[..|es| - 1], es[|es| - 1];
      ReadBackIsSafeOps(c, before);
      var a, b := Fold(c, before).config, ApplyOps(c, SafeOps(before));
      if IsDangerous(e.ops, e.reviewed) == Safe {
        OpsConcat(c, SafeOps(before), e.ops);
        OpsKeepEqual(a, b, SL_ATR, e.ops);
        CapTouchesStopOnly(ApplyOps(a, e.ops));
        EqualTrans(Capped(ApplyOps(a, e.ops)).value, ApplyOps(a, e.ops), ApplyOps(b, e.ops), SL_ATR);
      } else {
        assert SafeOps(before) + [] == SafeOps(before);
      }
    }
  }

  lemma NoOps(c: Json)
    ensures ApplyOps(c, []) == c && EqualBut(c, c, SL_ATR)
  {}

  /** Nothing but objects stands on the way to p (p itself may hold anything). */
  predicate Reachable(c: Json, p: Path)
    decreases |p|
  {
    p == [] || (c.Obj? && (|p| > 1 && p[0] in c.fields ==> Reachable(c.fields[p[0]], p[1..])))
  }

  lemma {:induction false} WriteReadsBack(c: Json, p: Path, v: Json)
    requires p != [] && Reachable(c, p)
    ensures Get(SetPath(c, p, v), p) == Some(v)
    decreases |p|
  {
    if |p| > 1 {
      var child := if p[0] in c.fields then c.fields[p[0]] else Obj(map[]);
      assert Reachable(child, p[1..]);
      WriteReadsBack(child, p[1..], v);
    } else {
      assert p[1..] == [];
    }
  }

  /** A safe patch's write is what is read: for the last of all safe writes that is not
      incomparable with p, at p itself where only objects stand on the way.  (The stop
      multiple and what contains it may be capped; see LastStopIsRead.) */
  lemma LastSafeWriteIsRead(c: Json, es: seq<Entry>, before: seq<Op>, op: Op, after: seq<Op>)
    requires Fold(c, es).Merged? && SafeOps(es) == before + [op] + after
    requires op.path != [] && Reachable(ApplyOps(c, before), op.path) && Incomparable(SL_ATR, op.path)
    requires forall i :: 0 <= i < |after| ==> Spares(after[i].path, op.path)
    ensures Get(Fold(c, es).config, op.path) == Some(op.value)
  {
    hide EqualBut, SetPath, Get, Fold, Reachable, Spares;
    ReadBackIsSafeOps(c, es);
    EqualReads(Fold(c, es).config, ApplyOps(c, SafeOps(es)), SL_ATR, op.path);
    LastWriteIsRead(c, before, op, after);
  }

  lemma LastWriteIsRead(c: Json, before: seq<Op>, op: Op, after: seq<Op>)
    requires op.path != [] && Reachable(ApplyOps(c, before), op.path)
    requires forall i :: 0 <= i < |after| ==> Spares(after[i].path, op.path)
    ensures Get(ApplyOps(c, before + [op] + after), op.path) == Some(op.value)
  {
    hide SetPath, Get, Reachable, Spares;
    OpsConcat(c, before + [op], after);
    assert (before + [op])[..|before|] == before;
    WriteReadsBack(ApplyOps(c, before), op.path, op.value);
    SparingOpsLeaveAlone(ApplyOps(c, before + [op]), after, op.path);
  }

  /** And where no safe write goes near p, the configuration keeps what it had. */
  lemma UnwrittenIsKept(c: Json, es: seq<Entry>, p: Path)
    requires Fold(c, es).Merged? && Incomparable(SL_ATR, p)
    requires forall i :: 0 <= i < |SafeOps(es)| ==> Spares(SafeOps(es)[i].path, p)
    ensures Get(Fold(c, es).config, p) == Get(c, p)
  {
    hide EqualBut, Get, Fold, Spares;
    ReadBackIsSafeOps(c, es);
    EqualReads(Fold(c, es).config, ApplyOps(c, SafeOps(es)), SL_ATR, p);
    SparingOpsLeaveAlone(c, SafeOps(es), p);
  }

  // ----- The cap -----------------------------------------------------------------------------------

  /** The stop multiple after a patch: numbers above 2 become 2. */
  function HeldToCap(v: Json): Json {
    if FloatOf(v).Some? && FloatOf(v).value > 2.0 then Num(2.0) else v
  }

  lemma GetStep(c: Json, path: Path, v: Json)
    requires path != [] && Get(c, path) == Some(v)
    ensures c.Obj? && path[0] in c.fields && Get(c.fields[path[0]], path[1..]) == Some(v)
  {}

  lemma GetHere(c: Json)
    ensures Get(c, []) == Some(c)
  {}

  lemma StopIsCurrent(c: Json, v: Json)
    requires Get(c, SL_ATR) == Some(v)
    ensures CurrentSl(c) == Some(v)
  {
    hide Get;
    var tail: Path, last: Path := ["sl_tp", "sl_atr_mult"], ["sl_atr_mult"];
    assert SL_ATR[0] == "trading" && SL_ATR[1..] == tail && tail[1..] == last && last[1..] == [];
    GetStep(c, SL_ATR, v);
    var trading := c.fields["trading"];
    GetStep(trading, tail, v);
    var slTp := trading.fields["sl_tp"];
    GetStep(slTp, last, v);
    GetHere(slTp.fields["sl_atr_mult"]);
  }

  lemma CapHolds(c: Json, v: Json)
    requires Get(c, SL_ATR) == Some(v) && Capped(c).Some?
    ensures Get(Capped(c).value, SL_ATR) == Some(HeldToCap(v))
  {
    StopIsCurrent(c, v);
    hide Get, SetPath, CurrentSl;
    if FloatOf(v).Some? && FloatOf(v).value > MAX_SL_ATR {
      PresentIsReachable(c, SL_ATR);
      WriteReadsBack(c, SL_ATR, Num(MAX_SL_ATR));
    }
  }

  lemma {:induction false} PresentIsReachable(c: Json, p: Path)
    requires Get(c, p).Some?
    ensures Reachable(c, p)
    decreases |p|
  {
    if |p| > 1 { PresentIsReachable(c.fields[p[0]], p[1..]); }
  }

  lemma {:induction false} EqualReachable(a: Json, b: Json, path: Path)
    requires EqualBut(a, b, path) && Reachable(b, path)
    ensures Reachable(a, path)
    decreases |path|
  {
    if a != b && |path| > 1 { EqualReachable(a.fields[path[0]], b.fields[path[0]], path[1..]); }
  }

  lemma HeldOnce(v: Json)
    ensures HeldToCap(HeldToCap(v)) == HeldToCap(v)
  {}

  /** Where the marked element of s + t stands. */
  lemma Splits(s: seq<Op>, t: seq<Op>, a: seq<Op>, op: Op, b: seq<Op>)
    requires s + t == a + [op] + b
    ensures |b| >= |t| ==> var b0 := b[..|b| - |t|]; s == a + [op] + b0 && b == b0 + t
    ensures |b| < |t| ==> var t0 := t[..|t| - |b| - 1]; t == t0 + [op] + b && a == s + t0
  {
    var all := s + t;
    assert |s| + |t| == |a| + 1 + |b|;
    assert s == all[..|s|] && t == all[|s|..];
    if |b| >= |t| {
      assert t == (a + [op] + b)[|s|..] == b[|b| - |t|..];
      assert s == (a + [op] + b)[..|s|];
    } else {
      assert b == all[|all| - |b|..] == t[|t| - |b|..];
      assert t[|t| - |b| - 1] == all[|all| - |b| - 1] == op;
      assert a == all[..|a|] == s + t[..|t| - |b| - 1];
    }
  }

  /** The last safe write of the stop multiple is read back held to the cap. */
  lemma {:induction false} LastStopIsRead(c: Json, es: seq<Entry>, before: seq<Op>, op: Op, after: seq<Op>)
    requires Fold(c, es).Merged? && SafeOps(es) == before + [op] + after
    requires op.path == SL_ATR && Reachable(ApplyOps(c, before), SL_ATR)
    requires forall i :: 0 <= i < |after| ==> Spares(after[i].path, SL_ATR)
    ensures Get(Fold(c, es).config, SL_ATR) == Some(HeldToCap(op.value))
  {
    hide IsDangerous, Capped, ApplyOps, Get, Reachable, EqualBut, Spares, HeldToCap;
    var rest, e := es[..|es| - 1], es[|es| - 1];
    if IsDangerous(e.ops, e.reviewed) != Safe {
      assert SafeOps(rest) + [] == SafeOps(rest);
      LastStopIsRead(c, rest, before, op, after);
    } else if |after| >= |e.ops| {
      var after0 := after[..|after| - |e.ops|];
      Splits(SafeOps(rest), e.ops, before, op, after);
      assert SafeOps(rest) == before + [op] + after0 && after == after0 + e.ops;
      forall i | 0 <= i < |after0| ensures Spares(after0[i].path, SL_ATR) { assert after0[i] == after[i]; }
      forall i | 0 <= i < |e.ops| ensures Spares(e.ops[i].path, SL_ATR) { assert e.ops[i] == after[|after0| + i]; }
      LastStopIsRead(c, rest, before, op, after0);
      var a := Fold(c, rest).config;
      SparingOpsLeaveAlone(a, e.ops, SL_ATR);
      CapHolds(ApplyOps(a, e.ops), HeldToCap(op.value));
      HeldOnce(op.value);
    } else {
      var pre := e.ops[..|e.ops| - |after| - 1];
      Splits(SafeOps(rest), e.ops, before, op, after);
      assert e.ops == pre + [op] + after && before == SafeOps(rest) + pre;
      var a := Fold(c, rest).config;
      ReadBackIsSafeOps(c, rest);
      OpsKeepEqual(a, ApplyOps(c, SafeOps(rest)), SL_ATR, pre);
      OpsConcat(c, SafeOps(rest), pre);
      EqualReachable(ApplyOps(a, pre), ApplyOps(c, before), SL_ATR);
      LastWriteIsRead(a, pre, op, after);
      CapHolds(ApplyOps(a, e.ops), op.value);
    }
  }

  /** A patched configuration whose stop multiple is within the cap is left as it is. */
  lemma CapLeavesAlone(c: Json)
    requires StopWithinCap(c)
    ensures Capped(c) == Some(c)
  {
    hide SetPath;
  }
}
