/** Reading stored patches back into the live configuration, and rolling unsafe
    ones back (core/learning_overrides.py). */
module LearningOverrides {
  import opened Numbers
  import opened ConfigProposal

  /** A stored patch; a missing or empty proposal id is None. */
  datatype Entry = Entry(id: Option<string>, ops: seq<Op>, reviewed: int)

  /** Failed where the Python code raises (a value is not a number, or a section that
      the cap walks through is not an object). */
  datatype ReadBack = Failed | Merged(config: Json, applied: seq<Option<string>>)

  function Judged(e: Entry): Verdict { IsDangerous(e.ops, e.reviewed) }

  // ----- The hard cap on the stop ---------------------------------------------------------

  /** d.get(key, otherwise); None where d is not an object. */
  function FieldOf(d: Json, key: string, otherwise: Json): Option<Json> {
    if !d.Obj? then None else Some(if key in d.fields then d.fields[key] else otherwise)
  }

  /** The configured sl_atr_mult (Null where absent); None where reading it raises. */
  function CurrentSl(c: Json): Option<Json> {
    var trading := FieldOf(c, "trading", Obj(map[]));
    if trading.None? then None
    else
      var slTp := FieldOf(trading.value, "sl_tp", Obj(map[]));
      if slTp.None? then None else FieldOf(slTp.value, "sl_atr_mult", Null)
  }

  function Capped(c: Json): Option<Json> {
    var sl := CurrentSl(c);
    if sl.None? then None
    else if sl.value.Null? then Some(c)
    else if FloatOf(sl.value).None? then None
    else if FloatOf(sl.value).value > MAX_SL_ATR then Some(SetPath(c, SL_ATR, Num(MAX_SL_ATR)))
    else Some(c)
  }

  // ----- The fold on values ------------------------------------------------------------------

  /** One stored entry: dangerous ones are skipped, safe ones applied and capped. */
  function Extend(b: ReadBack, e: Entry): ReadBack {
    if b.Failed? || Judged(e).Raises? then Failed
    else if Judged(e).Dangerous? then b
    else
      var capped := Capped(ApplyOps(b.config, e.ops));
      if capped.None? then Failed else Merged(capped.value, b.applied + [e.id])
  }

  function Fold(c: Json, es: seq<Entry>): ReadBack {
    if es == [] then Merged(c, []) else Extend(Fold(c, es[..|es| - 1]), es[|es| - 1])
  }

  /** rollback_patch: every entry with the id goes; without an id nothing does. */
  function RolledBack(es: seq<Entry>, id: Option<string>): seq<Entry> {
    if id.None? then es else Keep(es, {id.value})
  }

  function Keep(es: seq<Entry>, dropped: set<string>): seq<Entry> {
    if es == [] then []
    else
      var e := es[|es| - 1];
      var before := Keep(es[..|es| - 1], dropped);
      if e.id.Some? && e.id.value in dropped then before else before + [e]
  }

  /** The ids rolled back by a read-back. */
  function Unsafe(es: seq<Entry>): set<string> {
    if es == [] then {}
    else
      var e := es[|es| - 1];
      Unsafe(es[..|es| - 1]) + if Judged(e).Dangerous? && e.id.Some? then {e.id.value} else {}
  }

  // ----- The stored patches --------------------------------------------------------------------

  class OverrideFile {
    var patches: seq<Entry>
    var rollbacks: seq<string>

    method RollbackPatch(id: Option<string>)
      modifies this
      ensures patches == RolledBack(old(patches), id)
      ensures rollbacks == old(rollbacks) + if id.None? then [] else [id.value]
    {
      if id.None? { return; }
      var remaining: seq<Entry> := [];
      for i := 0 to |patches|
        invariant remaining == Keep(patches[..i], {id.value})
      {
        assert patches[..i + 1][..i] == patches[..i];
        var p := patches[i];
        if p.id != id { remaining := remaining + [p]; }
      }
      assert patches[..|patches|] == patches;
      patches, rollbacks := remaining, rollbacks + [id.value];
    }

    /** One entry of the read-back.  A safe patch is applied to a copy, and the cap is
        written into that copy in place. */
    method ReadEntry(merged: ConfigObject, applied: seq<Option<string>>, e: Entry)
      returns (ok: bool, merged': ConfigObject, applied': seq<Option<string>>)
      modifies this
      ensures merged' == merged || fresh(merged')
      ensures Extend(Merged(merged.tree, applied), e) == if ok then Merged(merged'.tree, applied') else Failed
      ensures patches == if Judged(e).Dangerous? then RolledBack(old(patches), e.id) else old(patches)
      ensures merged' == merged ==> applied' == applied
    {
      hide Judged, SetPath, ApplyOps, RolledBack;
      ok, merged', applied' := true, merged, applied;
      match Judged(e) {
        case Raises => ok := false;
        case Dangerous(_) => RollbackPatch(e.id);
        case Safe =>
          merged' := ApplyPatchToConfig(merged, e.ops);
          ok := EnforceCap(merged');
          applied' := applied + [e.id];
      }
    }

    /** Folds the stored patches over the configuration, rolling unsafe ones back.
        The configuration given is never written: it is returned itself when no
        patch applies, and otherwise a fresh object is. */
    method ApplyLearningOverrides(config: ConfigObject)
      returns (ok: bool, merged: ConfigObject, applied: seq<Option<string>>)
      modifies this
      ensures config.tree == old(config.tree)
      ensures merged == config || fresh(merged)
      ensures merged == config ==> applied == []
      ensures Fold(config.tree, old(patches)) == if ok then Merged(merged.tree, applied) else Failed
      ensures ok ==> patches == Keep(old(patches), Unsafe(old(patches)))
    {
      hide Judged, Extend, RolledBack;
      ghost var stored := patches;
      var entries := patches;
      ok, merged, applied := true, config, [];
      KeepAll(stored);
      for i := 0 to |entries|
        invariant ok && Fold(config.tree, entries[..i]) == Merged(merged.tree, applied)
        invariant merged == config || fresh(merged)
        invariant merged == config ==> applied == []
        invariant patches == Keep(stored, Unsafe(entries[..i]))
      {
        assert entries[..i + 1][..i] == entries[..i];
        UnsafeSnoc(entries, i);
        KeepTwice(stored, Unsafe(entries[..i]), entries[i].id);
        ok, merged, applied := ReadEntry(merged, applied, entries[i]);
        if !ok {
          FailureLasts(config.tree, entries, i + 1);
          return;
        }
      }
      assert entries[..|entries|] == entries;
    }
  }

  /** Writes the cap in place; false where reading the stop multiple raises. */
  method EnforceCap(merged: ConfigObject) returns (ok: bool)
    modifies merged
    ensures Capped(old(merged.tree)) == if ok then Some(merged.tree) else None
  {
    hide SetPath;
    var sl := CurrentSl(merged.tree);
    if sl.None? { return false; }
    if !sl.value.Null? {
      var x := FloatOf(sl.value);
      if x.None? { return false; }
      if x.value > MAX_SL_ATR { merged.Write(SL_ATR, Num(MAX_SL_ATR)); }
    }
    return true;
  }

  lemma UnsafeSnoc(es: seq<Entry>, i: nat)
    requires i < |es|
    ensures Unsafe(es[..i + 1]) == if Judged(es[i]).Dangerous? && es[i].id.Some? then Unsafe(es[..i]) + {es[i].id.value}
                                   else Unsafe(es[..i])
  {
    hide Judged;
    assert es[..i + 1][..i] == es[..i];
  }

  lemma {:induction false} KeepAll(es: seq<Entry>)
    ensures Keep(es, {}) == es
  {
    if es != [] { KeepAll(es[..|es| - 1]); }
  }

  lemma {:induction false} KeepTwice(es: seq<Entry>, dropped: set<string>, id: Option<string>)
    ensures RolledBack(Keep(es, dropped), id) == Keep(es, if id.Some? then dropped + {id.value} else dropped)
  {
    if id.Some? && es != [] {
      var n := |es| - 1;
      KeepTwice(es[..n], dropped, id);
      var before := Keep(es[..n], dropped);
      assert (before + [es[n]])[..|before|] == before;
    }
  }

  lemma {:induction false} FailureLasts(c: Json, es: seq<Entry>, k: nat)
    requires k <= |es| && Fold(c, es[..k]).Failed?
    ensures Fold(c, es).Failed?
  {
    if k == |es| {
      assert es[..k] == es;
    } else {
      var n := |es| - 1;
      assert es[..n][..k] == es[..k];
      FailureLasts(c, es[..n], k);
    }
  }

  // ----- Protected paths -------------------------------------------------------------------------

  predicate Incomparable(p: Path, q: Path) { !(p <= q) && !(q <= p) }

  /** A write reads back unchanged on every path it is incomparable with. */
  lemma {:induction false} WriteElsewhere(c: Json, q: Path, v: Json, p: Path)
    requires Incomparable(q, p)
    ensures Get(SetPath(c, q, v), p) == Get(c, p)
    decreases |q|
  {
    if c.Obj? && p[0] == q[0] {
      var child := if q[0] in c.fields then c.fields[q[0]] else Obj(map[]);
      assert q == [q[0]] + q[1..] && p == [p[0]] + p[1..];
      assert Incomparable(q[1..], p[1..]);
      WriteElsewhere(child, q[1..], v, p[1..]);
    }
  }

  /** Reading along a path that a configuration holds nothing at. */
  lemma GetEmpty(p: Path)
    requires p != []
    ensures Get(Obj(map[]), p) == None
  {}

  /** A configuration of one nested value. */
  function Nested(p: Path, v: Json): Json {
    if p == [] then v else Obj(map[p[0] := Nested(p[1..], v)])
  }

  lemma {:induction false} GetNested(p: Path, v: Json)
    ensures Get(Nested(p, v), p) == Some(v)
  {
    if p != [] { GetNested(p[1..], v); }
  }

  /** Writing at a prefix of the path, or below it, changes what is read there. */
  lemma {:induction false} OverwritePrefix(q: Path, p: Path)
    requires q != [] && q <= p
    ensures Get(SetPath(Nested(p, Bool(true)), q, Null), p) != Some(Bool(true))
  {
    assert p[0] == q[0] && q[1..] <= p[1..];
    if |q| == 1 {
      assert q[1..] == [];
    } else {
      OverwritePrefix(q[1..], p[1..]);
    }
  }

  lemma {:induction false} WriteBelow(q: Path, p: Path, v: Json)
    requires p != [] && p <= q
    ensures Get(SetPath(Obj(map[]), q, v), p).Some?
  {
    assert p[0] == q[0] && p[1..] <= q[1..];
    if |p| > 1 { WriteBelow(q[1..], p[1..], v); }
  }

  ghost predicate LeavesAlone(q: Path, p: Path) { forall c, v :: Get(SetPath(c, q, v), p) == Get(c, p) }

  /** A write leaves a path alone in every configuration exactly when it is empty or
      neither path is a prefix of the other. */
  lemma LeavesAloneIffIncomparable(q: Path, p: Path)
    requires p != []
    ensures LeavesAlone(q, p) <==> q == [] || Incomparable(q, p)
  {
    if q == [] {
      assert LeavesAlone(q, p);
    } else if Incomparable(q, p) {
      forall c, v ensures Get(SetPath(c, q, v), p) == Get(c, p) { WriteElsewhere(c, q, v, p); }
    } else if q <= p {
      OverwritePrefix(q, p);
      GetNested(p, Bool(true));
      assert Get(SetPath(Nested(p, Bool(true)), q, Null), p) != Get(Nested(p, Bool(true)), p);
    } else {
      WriteBelow(q, p, Null);
      GetEmpty(p);
      assert Get(SetPath(Obj(map[]), q, Null), p) != Get(Obj(map[]), p);
    }
  }

  // ----- A list of writes -----------------------------------------------------------------------

  predicate Along(ops: seq<Op>, paths: seq<Path>) {
    |ops| == |paths| && forall i :: 0 <= i < |ops| ==> ops[i].path == paths[i]
  }

  ghost predicate OpsLeaveAlone(paths: seq<Path>, p: Path) {
    forall c, ops :: Along(ops, paths) ==> Get(ApplyOps(c, ops), p) == Get(c, p)
  }

  predicate Spares(q: Path, p: Path) { q == [] || Incomparable(q, p) }

  predicate AllSpare(paths: seq<Path>, p: Path) { forall i :: 0 <= i < |paths| ==> Spares(paths[i], p) }

  lemma {:induction false} SparingOpsLeaveAlone(c: Json, ops: seq<Op>, p: Path)
    requires forall i :: 0 <= i < |ops| ==> Spares(ops[i].path, p)
    ensures Get(ApplyOps(c, ops), p) == Get(c, p)
  {
    hide SetPath, Get;
    if ops != [] {
      var n := |ops| - 1;
      SparingOpsLeaveAlone(c, ops[..n], p);
      var before, op := ApplyOps(c, ops[..n]), ops[n];
      if op.path == [] { EmptyWrite(before, op.value); } else { WriteElsewhere(before, op.path, op.value, p); }
    }
  }

  lemma EmptyWrite(c: Json, v: Json)
    ensures SetPath(c, [], v) == c
  {}

  /** A value for a write at q that sets a leaf at p to false where q reaches p. */
  function Clearing(q: Path, p: Path): Json { if q <= p then Nested(p[|q|..], Bool(false)) else Null }

  lemma {:induction false} WriteAtOrAbove(c: Json, q: Path, p: Path)
    requires q != [] && q <= p && Get(c, p).Some?
    ensures Get(SetPath(c, q, Clearing(q, p)), p) == Some(Bool(false))
  {
    assert p[0] == q[0] && q[1..] <= p[1..];
    if |q| == 1 {
      GetNested(p[1..], Bool(false));
    } else {
      assert p[|q|..] == p[1..][|q[1..]|..];
      WriteAtOrAbove(c.fields[p[0]], q[1..], p[1..]);
    }
  }

  lemma {:induction false} WriteUnderLeaf(c: Json, q: Path, v: Json, p: Path)
    requires p != [] && p <= q && p != q && Get(c, p).Some? && Get(c, p).value.Bool?
    ensures Get(SetPath(c, q, v), p) == Get(c, p)
  {
    assert p[0] == q[0] && p[1..] <= q[1..] && p[1..] != q[1..];
    if |p| > 1 { WriteUnderLeaf(c.fields[p[0]], q[1..], v, p[1..]); } else { assert p[1..] == []; }
  }

  function ClearingOps(paths: seq<Path>, p: Path): seq<Op> {
    if paths == [] then []
    else
      var q := paths[|paths| - 1];
      ClearingOps(paths[..|paths| - 1], p) + [Op(q, Null, Clearing(q, p))]
  }

  predicate Reaches(paths: seq<Path>, p: Path) { exists i :: 0 <= i < |paths| && paths[i] != [] && paths[i] <= p }

  lemma {:induction false} ClearingAlong(paths: seq<Path>, p: Path)
    ensures Along(ClearingOps(paths, p), paths)
  {
    if paths != [] { ClearingAlong(paths[..|paths| - 1], p); }
  }

  /** A leaf at p stays a leaf, and reads false once some write reached it. */
  lemma {:induction false} ClearingReaches(c: Json, paths: seq<Path>, p: Path)
    requires p != [] && Get(c, p) == Some(Bool(true))
    ensures Get(ApplyOps(c, ClearingOps(paths, p)), p) == Some(Bool(!Reaches(paths, p)))
  {
    hide SetPath, Get, Clearing;
    if paths != [] {
      var n := |paths| - 1;
      ClearingReaches(c, paths[..n], p);
      var q, before := paths[n], ApplyOps(c, ClearingOps(paths[..n], p));
      var ops := ClearingOps(paths[..n], p);
      assert (ops + [Op(q, Null, Clearing(q, p))])[..|ops|] == ops;
      assert Reaches(paths, p) <==> Reaches(paths[..n], p) || (q != [] && q <= p) by { ReachesSnoc(paths, p); }
      if q == [] {
        EmptyWrite(before, Clearing(q, p));
      } else if q <= p {
        WriteAtOrAbove(before, q, p);
      } else if p <= q {
        WriteUnderLeaf(before, q, Clearing(q, p), p);
      } else {
        WriteElsewhere(before, q, Clearing(q, p), p);
      }
    }
  }

  lemma ReachesSnoc(paths: seq<Path>, p: Path)
    requires paths != []
    ensures var n := |paths| - 1;
            Reaches(paths, p) <==> Reaches(paths[..n], p) || (paths[n] != [] && paths[n] <= p)
  {
    var n := |paths| - 1;
    assert forall i :: 0 <= i < n ==> paths[..n][i] == paths[i];
  }

  /** Nothing but objects stands on the way to p, nor at p. */
  predicate OpenAlong(c: Json, p: Path)
    decreases |p|
  {
    c.Obj? && (p != [] && p[0] in c.fields ==> OpenAlong(c.fields[p[0]], p[1..]))
  }

  lemma {:induction false} WriteKeepsOpen(c: Json, q: Path, v: Json, p: Path)
    requires OpenAlong(c, p) && !(q <= p)
    ensures OpenAlong(SetPath(c, q, v), p)
    ensures p <= q ==> Get(SetPath(c, q, v), p).Some?
    decreases |q|
  {
    if p != [] && p[0] == q[0] {
      assert q == [q[0]] + q[1..] && p == [p[0]] + p[1..];
      assert !(q[1..] <= p[1..]) && (p <= q ==> p[1..] <= q[1..]);
      var child := if q[0] in c.fields then c.fields[q[0]] else Obj(map[]);
      WriteKeepsOpen(child, q[1..], v, p[1..]);
    }
  }

  /** Where no write reaches p, one below it makes it present for good. */
  lemma {:induction false} WritesBelowStay(c: Json, ops: seq<Op>, p: Path)
    requires p != [] && OpenAlong(c, p) && forall i :: 0 <= i < |ops| ==> ops[i].path == [] || !(ops[i].path <= p)
    ensures OpenAlong(ApplyOps(c, ops), p)
    ensures (exists i :: 0 <= i < |ops| && ops[i].path != [] && p <= ops[i].path) ==> Get(ApplyOps(c, ops), p).Some?
  {
    hide SetPath, Get, OpenAlong;
    if ops != [] {
      var n := |ops| - 1;
      WritesBelowStay(c, ops[..n], p);
      var before, op := ApplyOps(c, ops[..n]), ops[n];
      if op.path == [] {
        EmptyWrite(before, op.value);
      } else {
        WriteKeepsOpen(before, op.path, op.value, p);
        if !(p <= op.path) { WriteElsewhere(before, op.path, op.value, p); }
      }
      assert forall i :: 0 <= i < n ==> ops[..n][i] == ops[i];
    }
  }

  function NullOps(paths: seq<Path>): (ops: seq<Op>)
    ensures Along(ops, paths)
  {
    seq(|paths|, i requires 0 <= i < |paths| => Op(paths[i], Null, Null))
  }

  /** Nulls make p present, where no write reaches it and one goes below it. */
  lemma NullOpsReach(paths: seq<Path>, p: Path)
    requires p != [] && !Reaches(paths, p) && !AllSpare(paths, p)
    ensures Get(ApplyOps(Obj(map[]), NullOps(paths)), p) != Get(Obj(map[]), p)
  {
    hide ApplyOps, Get;
    var ops := NullOps(paths);
    var k :| 0 <= k < |paths| && !Spares(paths[k], p);
    assert ops[k].path == paths[k] && p <= ops[k].path;
    WritesBelowStay(Obj(map[]), ops, p);
    GetEmpty(p);
  }

  /** A list of writes leaves a path alone, in every configuration and for all values,
      exactly when each of its paths is empty or incomparable with it. */
  lemma OpsLeaveAloneIffAllSpare(paths: seq<Path>, p: Path)
    requires p != []
    ensures OpsLeaveAlone(paths, p) <==> AllSpare(paths, p)
  {
    hide ApplyOps, Get;
    if AllSpare(paths, p) {
      forall c, ops | Along(ops, paths) ensures Get(ApplyOps(c, ops), p) == Get(c, p) {
        SparingOpsLeaveAlone(c, ops, p);
      }
    } else if Reaches(paths, p) {
      var c := Nested(p, Bool(true));
      GetNested(p, Bool(true));
      ClearingAlong(paths, p);
      ClearingReaches(c, paths, p);
      assert Get(ApplyOps(c, ClearingOps(paths, p)), p) != Get(c, p);
    } else {
      NullOpsReach(paths, p);
    }
  }

  // ----- A list of writes that the judge lets through -----------------------------------------

  lemma ForbiddenHeads(p: Path)
    requires p in FORBIDDEN
    ensures p != [] && p[0] != "filters" && p[0] != "fast_mode"
  {}

  /** Nulls are judged safe on every path that is not forbidden. */
  lemma NullIsSafe(q: Path, reviewed: int)
    requires q !in FORBIDDEN
    ensures JudgeOp(Op(q, Null, Null), reviewed) == Safe
  {
    assert LOT_PATHS <= FORBIDDEN;
    hide FORBIDDEN, GUARD_DISABLE;
  }

  /** So is the write that clears a forbidden path from above. */
  lemma ClearingIsSafe(q: Path, p: Path, reviewed: int)
    requires q !in FORBIDDEN && p in FORBIDDEN
    ensures JudgeOp(Op(q, Null, Clearing(q, p)), reviewed) == Safe
  {
    if q <= p {
      ForbiddenHeads(p);
      assert q != p && p[|q|..] != [];
      assert SPREAD_MULT[0] == "filters" && HOURLY_CAP[0] == "fast_mode";
      assert LOT_PATHS <= FORBIDDEN;
      hide FORBIDDEN, GUARD_DISABLE;
    } else {
      NullIsSafe(q, reviewed);
    }
  }

  lemma {:induction false} ClearingOpsAreSafe(paths: seq<Path>, p: Path, reviewed: int, i: nat)
    requires p in FORBIDDEN && i < |ClearingOps(paths, p)|
    requires forall k :: 0 <= k < |paths| ==> paths[k] !in FORBIDDEN
    ensures JudgeOp(ClearingOps(paths, p)[i], reviewed) == Safe
  {
    hide JudgeOp, FORBIDDEN, Clearing;
    var n := |paths| - 1;
    if i == |ClearingOps(paths[..n], p)| {
      ClearingIsSafe(paths[n], p, reviewed);
    } else {
      ClearingOpsAreSafe(paths[..n], p, reviewed, i);
    }
  }

  predicate AnyForbidden(paths: seq<Path>) { exists i :: 0 <= i < |paths| && paths[i] in FORBIDDEN }

  lemma ForbiddenIsNeverSafe(ops: seq<Op>, paths: seq<Path>, reviewed: int)
    requires Along(ops, paths) && AnyForbidden(paths)
    ensures IsDangerous(ops, reviewed) != Safe
  {
    hide FORBIDDEN;
    var i :| 0 <= i < |paths| && paths[i] in FORBIDDEN;
    assert JudgeOp(ops[i], reviewed) == Dangerous(ForbiddenPath);
    SafeMeansEveryOp(ops, reviewed);
  }

  ghost predicate SafePatchesLeaveAlone(paths: seq<Path>, reviewed: int, p: Path) {
    forall c, ops :: Along(ops, paths) && IsDangerous(ops, reviewed) == Safe ==> Get(ApplyOps(c, ops), p) == Get(c, p)
  }

  /** Every patch over these paths that is judged safe leaves a forbidden path alone,
      in every configuration, exactly when one of the paths is itself forbidden
      (no patch is then safe) or each is empty or incomparable with it. */
  lemma SafePatchesLeaveAloneIff(paths: seq<Path>, reviewed: int, p: Path)
    requires p in FORBIDDEN
    ensures SafePatchesLeaveAlone(paths, reviewed, p) <==> AnyForbidden(paths) || AllSpare(paths, p)
  {
    ForbiddenHeads(p);
    hide FORBIDDEN, ApplyOps, Get, IsDangerous, JudgeOp, Along, AllSpare, Reaches, ClearingOps, NullOps;
    if AnyForbidden(paths) {
      forall ops | Along(ops, paths) ensures IsDangerous(ops, reviewed) != Safe {
        ForbiddenIsNeverSafe(ops, paths, reviewed);
      }
    } else if AllSpare(paths, p) {
      OpsLeaveAloneIffAllSpare(paths, p);
    } else if Reaches(paths, p) {
      var c, ops := Nested(p, Bool(true)), ClearingOps(paths, p);
      GetNested(p, Bool(true));
      ClearingAlong(paths, p);
      ClearingReaches(c, paths, p);
      forall i | 0 <= i < |ops| ensures JudgeOp(ops[i], reviewed) == Safe {
        ClearingOpsAreSafe(paths, p, reviewed, i);
      }
      SafeMeansEveryOp(ops, reviewed);
      assert Get(ApplyOps(c, ops), p) != Get(c, p);
    } else {
      NullOpsAreSafe(paths, reviewed);
      NullOpsReach(paths, p);
    }
  }

  lemma NullOpsAreSafe(paths: seq<Path>, reviewed: int)
    requires !AnyForbidden(paths)
    ensures Along(NullOps(paths), paths) && IsDangerous(NullOps(paths), reviewed) == Safe
  {
    hide FORBIDDEN, JudgeOp, IsDangerous;
    forall i | 0 <= i < |paths| ensures JudgeOp(NullOps(paths)[i], reviewed) == Safe { NullIsSafe(paths[i], reviewed); }
    SafeMeansEveryOp(NullOps(paths), reviewed);
  }

  const MAX_LOT: Path := ["execution", "max_lot"]

  function ParentWrite(lot: real): Op { Op(["execution"], Null, Obj(map["max_lot" := Num(lot)])) }

  lemma ParentWriteIsSafe(lot: real)
    ensures MAX_LOT in FORBIDDEN && IsDangerous([ParentWrite(lot)], 0) == Safe
  {
    var q: Path := ["execution"];
    assert |SPREAD_MULT| == 2 && |HOURLY_CAP| == 2 && |q| == 1;
    assert forall f :: f in FORBIDDEN + LOT_PATHS + GUARD_DISABLE ==> |f| >= 2;
    hide FORBIDDEN, GUARD_DISABLE, LOT_PATHS;
    OneOp(ParentWrite(lot), 0);
  }

  lemma ParentWriteReplaces(c: Json, lot: real)
    requires c.Obj?
    ensures Get(ApplyOps(c, [ParentWrite(lot)]), MAX_LOT) == Some(Num(lot))
  {
    var op := ParentWrite(lot);
    assert [op][..0] == [] && ApplyOps(c, []) == c;
    assert ApplyOps(c, [op]) == SetPath(c, ["execution"], op.value) == Obj(c.fields["execution" := op.value]);
    assert MAX_LOT[1..] == ["max_lot"] && ["max_lot"][1..] == [];
    assert Get(op.value, ["max_lot"]) == Some(Num(lot));
  }

  /** A write at the parent of a forbidden path is judged safe and replaces it, in
      every configuration object. */
  lemma ParentWriteReplacesForbidden(c: Json, lot: real)
    requires c.Obj?
    ensures MAX_LOT in FORBIDDEN && IsDangerous([ParentWrite(lot)], 0) == Safe
    ensures Get(ApplyOps(c, [ParentWrite(lot)]), MAX_LOT) == Some(Num(lot))
  {
    hide FORBIDDEN, ApplyOps, Get, IsDangerous;
    ParentWriteIsSafe(lot);
    ParentWriteReplaces(c, lot);
  }

  /** Each op's path is empty, or one of the forbidden paths itself, or
      prefix-incomparable with them all. */
  predicate KeepsClear(ops: seq<Op>) {
    forall i, p :: 0 <= i < |ops| && p in FORBIDDEN ==>
      ops[i].path == [] || ops[i].path in FORBIDDEN || Incomparable(ops[i].path, p)
  }

  lemma {:induction false} SafeOpsKeepForbidden(c: Json, ops: seq<Op>, reviewed: int, p: Path)
    requires p in FORBIDDEN && KeepsClear(ops)
    requires forall i :: 0 <= i < |ops| ==> JudgeOp(ops[i], reviewed) == Safe
    ensures Get(ApplyOps(c, ops), p) == Get(c, p)
  {
    hide FORBIDDEN, SetPath, Get;
    if ops != [] {
      var n := |ops| - 1;
      SafeOpsKeepForbidden(c, ops[..n], reviewed, p);
      assert ops[n].path !in FORBIDDEN;
      if ops[n].path != [] {
        WriteElsewhere(ApplyOps(c, ops[..n]), ops[n].path, ops[n].value, p);
      } else {
        EmptyWrite(ApplyOps(c, ops[..n]), ops[n].value);
      }
    }
  }

  lemma CapIsClear(p: Path)
    requires p in FORBIDDEN
    ensures Incomparable(SL_ATR, p)
  {
    assert SL_ATR[0] == "trading" && p[0] != "trading";
  }

  lemma CapKeepsForbidden(c: Json, p: Path)
    requires p in FORBIDDEN && Capped(c).Some?
    ensures Get(Capped(c).value, p) == Get(c, p)
  {
    hide SetPath, CurrentSl;
    CapIsClear(p);
    WriteElsewhere(c, SL_ATR, Num(MAX_SL_ATR), p);
  }

  /** For any stored patches whose ops keep clear of the forbidden paths, the merged
      configuration agrees with the input on every one of them. */
  lemma {:induction false} ForbiddenPathsSurvive(c: Json, es: seq<Entry>, p: Path)
    requires p in FORBIDDEN && Fold(c, es).Merged?
    requires forall i :: 0 <= i < |es| ==> KeepsClear(es[i].ops)
    ensures Get(Fold(c, es).config, p) == Get(c, p)
  {
    hide FORBIDDEN, Capped, ApplyOps, Get, IsDangerous, JudgeOp, KeepsClear;
    if es != [] {
      var n := |es| - 1;
      var e := es[n];
      ForbiddenPathsSurvive(c, es[..n], p);
      if Judged(e).Safe? {
        var b := Fold(c, es[..n]).config;
        SafeMeansEveryOp(e.ops, e.reviewed);
        SafeOpsKeepForbidden(b, e.ops, e.reviewed, p);
        CapKeepsForbidden(ApplyOps(b, e.ops), p);
      }
    }
  }

  // ----- The cap ---------------------------------------------------------------------------------

  /** The stop multiple is absent or a number within the cap. */
  predicate StopWithinCap(c: Json) {
    var sl := CurrentSl(c);
    sl.Some? && (sl.value.Null? || (FloatOf(sl.value).Some? && FloatOf(sl.value).value <= MAX_SL_ATR))
  }

  lemma CappedIsWithinCap(c: Json)
    requires Capped(c).Some?
    ensures StopWithinCap(Capped(c).value)
  {
    var v := Num(MAX_SL_ATR);
    var c' := Capped(c).value;
    if c' != c {
      assert SL_ATR[1..] == ["sl_tp", "sl_atr_mult"] && SL_ATR[1..][1..] == ["sl_atr_mult"];
      var trading := c.fields["trading"];
      var slTp := trading.fields["sl_tp"];
      assert SetPath(slTp, ["sl_atr_mult"], v) == Obj(slTp.fields["sl_atr_mult" := v]);
      assert SetPath(trading, ["sl_tp", "sl_atr_mult"], v)
          == Obj(trading.fields["sl_tp" := Obj(slTp.fields["sl_atr_mult" := v])]);
    }
  }

  /** Once any patch applies, the merged stop multiple is within the hard cap. */
  lemma {:induction false} StopIsCapped(c: Json, es: seq<Entry>)
    requires Fold(c, es).Merged? && Fold(c, es).applied != []
    ensures StopWithinCap(Fold(c, es).config)
  {
    hide Capped, ApplyOps, Judged, StopWithinCap;
    var n := |es| - 1;
    if Judged(es[n]).Safe? {
      CappedIsWithinCap(ApplyOps(Fold(c, es[..n]).config, es[n].ops));
    } else {
      StopIsCapped(c, es[..n]);
    }
  }

  // ----- Reading back twice ------------------------------------------------------------------------

  function SafeOnly(es: seq<Entry>): seq<Entry> {
    if es == [] then []
    else SafeOnly(es[..|es| - 1]) + if Judged(es[|es| - 1]).Safe? then [es[|es| - 1]] else []
  }

  predicate NoneRaises(es: seq<Entry>) { forall i :: 0 <= i < |es| ==> !Judged(es[i]).Raises? }

  /** Dangerous entries leave no trace in the result. */
  lemma {:induction false} FoldIsFoldOfSafe(c: Json, es: seq<Entry>)
    requires NoneRaises(es)
    ensures Fold(c, es) == Fold(c, SafeOnly(es))
  {
    hide Judged, Extend;
    if es != [] {
      var n := |es| - 1;
      FoldIsFoldOfSafe(c, es[..n]);
      var before := SafeOnly(es[..n]);
      if Judged(es[n]).Safe? {
        assert (before + [es[n]])[..|before|] == before;
      } else {
        DangerousIsSkipped(Fold(c, es[..n]), es[n]);
        assert before + [] == before;
      }
    }
  }

  lemma DangerousIsSkipped(b: ReadBack, e: Entry)
    requires Judged(e).Dangerous?
    ensures Extend(b, e) == b
  {}

  lemma {:induction false} MergedNeverRaises(c: Json, es: seq<Entry>)
    requires Fold(c, es).Merged?
    ensures NoneRaises(es) && |Fold(c, es).applied| == |SafeOnly(es)|
  {
    hide Judged, Capped, ApplyOps;
    if es != [] {
      MergedNeverRaises(c, es[..|es| - 1]);
    }
  }

  predicate Clashes(e: Entry, dropped: set<string>) { Judged(e).Safe? && e.id.Some? && e.id.value in dropped }

  predicate AnyClash(es: seq<Entry>, dropped: set<string>) { exists i :: 0 <= i < |es| && Clashes(es[i], dropped) }

  /** Dropping ids loses a safe entry exactly when one carries a dropped id. */
  lemma {:induction false} KeepLosesClashes(es: seq<Entry>, dropped: set<string>)
    requires NoneRaises(es)
    ensures NoneRaises(Keep(es, dropped)) && |SafeOnly(Keep(es, dropped))| <= |SafeOnly(es)|
    ensures if AnyClash(es, dropped) then |SafeOnly(Keep(es, dropped))| < |SafeOnly(es)|
            else SafeOnly(Keep(es, dropped)) == SafeOnly(es)
  {
    hide Judged;
    if es != [] {
      var n := |es| - 1;
      var e, before := es[n], Keep(es[..n], dropped);
      KeepLosesClashes(es[..n], dropped);
      assert forall i :: 0 <= i < n ==> es[..n][i] == es[i];
      assert (before + [e])[..|before|] == before;
      assert Clashes(e, dropped) ==> AnyClash(es, dropped);
      assert AnyClash(es, dropped) <==> AnyClash(es[..n], dropped) || Clashes(e, dropped);
    }
  }

  /** A second read-back over the file the first one left gives the same result
      exactly when no safe patch shares its id with a patch that was rolled back;
      in particular with unique ids. */
  lemma SecondReadBackIsTheSame(c: Json, es: seq<Entry>)
    requires Fold(c, es).Merged?
    ensures var left := Keep(es, Unsafe(es));
            Fold(c, left) == Fold(c, es) <==> !AnyClash(es, Unsafe(es))
  {
    hide Judged, Capped, ApplyOps, Unsafe, AnyClash;
    var left := Keep(es, Unsafe(es));
    MergedNeverRaises(c, es);
    KeepLosesClashes(es, Unsafe(es));
    FoldIsFoldOfSafe(c, es);
    FoldIsFoldOfSafe(c, left);
    if Fold(c, left).Merged? { MergedNeverRaises(c, left); }
  }

  predicate UniqueIds(es: seq<Entry>) {
    forall i, j :: 0 <= i < j < |es| && es[i].id.Some? ==> es[i].id != es[j].id
  }

  lemma {:induction false} UnsafeAreDangerous(es: seq<Entry>, id: string)
    requires id in Unsafe(es)
    ensures exists i :: 0 <= i < |es| && es[i].id == Some(id) && Judged(es[i]).Dangerous?
  {
    hide Judged;
    var n := |es| - 1;
    if id in Unsafe(es[..n]) {
      UnsafeAreDangerous(es[..n], id);
      var i :| 0 <= i < n && es[..n][i].id == Some(id) && Judged(es[..n][i]).Dangerous?;
      assert es[i].id == Some(id) && Judged(es[i]).Dangerous?;
    } else {
      assert es[n].id == Some(id) && Judged(es[n]).Dangerous?;
    }
  }

  lemma UniqueIdsNeverClash(es: seq<Entry>)
    requires UniqueIds(es)
    ensures !AnyClash(es, Unsafe(es))
  {
    hide Judged, Unsafe;
    forall j | 0 <= j < |es| ensures !Clashes(es[j], Unsafe(es)) {
      if es[j].id.Some? && es[j].id.value in Unsafe(es) {
        UnsafeAreDangerous(es, es[j].id.value);
        var i :| 0 <= i < |es| && es[i].id == es[j].id && Judged(es[i]).Dangerous?;
        assert i == j;
      }
    }
  }

  /** With unique ids a second read-back gives the same configuration and ids. */
  lemma UniqueIdsReadBackTwice(c: Json, es: seq<Entry>)
    requires Fold(c, es).Merged? && UniqueIds(es)
    ensures Fold(c, Keep(es, Unsafe(es))) == Fold(c, es)
  {
    hide UniqueIds, AnyClash, Fold, Keep, Unsafe;
    UniqueIdsNeverClash(es);
    SecondReadBackIsTheSame(c, es);
  }
}
