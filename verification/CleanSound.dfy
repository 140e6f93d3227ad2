// The cleanup of a chain (tree/const.go) preserves the run of every chain
// that meets the conditions, and empties exactly the chains that the guard of
// module Emptied describes.
module CleanSound {
  import opened Wrappers
  import opened Types
  import opened Syntax
  import opened Semantics
  import opened TypeCheck
  import opened Soundness
  import opened Fold
  import opened Chain
  import opened ChainFold
  import opened Conditions
  import opened Overwrite
  import opened Emptied

  // The chain becomes acts', which runs no worse, meets the conditions, and
  // is emptied in the end exactly if acts is.
  predicate Step(c: Compilers, w: World, acts: seq<Act>, acts': seq<Act>, st: St, sig: Sig, g: Scope) {
    && Better(RunChain(w, acts, true, st, sig), RunChain(w, acts', true, st, sig))
    && ChainOk(c, acts', g, w.levels)
    && (VoidFrom(c, acts', 0) <==> VoidFrom(c, acts, 0))
  }

  lemma StepTrans(c: Compilers, w: World, x: seq<Act>, y: seq<Act>, z: seq<Act>, st: St, sig: Sig, g: Scope)
    requires Step(c, w, x, y, st, sig, g) && Step(c, w, y, z, st, sig, g)
    ensures Step(c, w, x, z, st, sig, g)
  {
  }

  lemma Apart(acts: seq<Act>, i: nat, a: Act)
    requires i < |acts|
    ensures acts == acts[..i] + [acts[i]] + acts[i + 1..]
    ensures acts[i := a] == acts[..i] + [a] + acts[i + 1..]
  {
  }

  // ----- an action is folded -----

  lemma {:induction false} FrontTyped(w: World, before: seq<Act>, success: bool, st: St, sig: Sig, g: Scope)
    requires ScopeOk(g) && StoreTyped(st, g) && forall b | b in before :: ActReady(b.what, g, w.levels)
    ensures var f := RunFront(w, before, success, st, sig); f.Here? ==> StoreTyped(f.st, g)
    decreases before
  {
    if before != [] && Taken(before[0].con, success) {
      ReadySound(w, before[0].what, st, sig, g);
      var r := RunAct(w, before[0].what, st, sig);
      if r.ActOk? { FrontTyped(w, before[1..], r.success, r.st, r.sig, g); }
    }
  }

  lemma ReadySound(w: World, e: Expr, st: St, sig: Sig, g: Scope)
    requires ScopeOk(g) && StoreTyped(st, g) && ActReady(e, g, w.levels)
    ensures var r := RunAct(w, e, st, sig); r.ActOk? ==> StoreTyped(r.st, g)
  {
    if e != TRUE { ActSound(w, e, st, sig, g); }
  }

  lemma FoldAt(c: Compilers, w: World, before: seq<Act>, a: Act, after: seq<Act>, st: St, sig: Sig, g: Scope)
    requires ScopeOk(g) && StoreTyped(st, g) && FoldExpr(c, a.what).errors == 0
    requires forall b | b in before :: ActReady(b.what, g, w.levels)
    requires ActReady(a.what, g, w.levels)
    ensures Better(RunChain(w, before + [a] + after, true, st, sig),
                   RunChain(w, before + [Act(a.con, FoldExpr(c, a.what).e)] + after, true, st, sig))
  {
    var a' := Act(a.con, FoldExpr(c, a.what).e);
    var f := RunFront(w, before, true, st, sig);
    RunAround(w, before, a, after, true, st, sig);
    RunAround(w, before, a', after, true, st, sig);
    if f.Here? {
      FrontTyped(w, before, true, st, sig, g);
      RunFirst(w, a, after, f.success, f.st, f.sig);
      RunFirst(w, a', after, f.success, f.st, f.sig);
      ActFoldSound(c, w, a.what, f.st, f.sig, g);
    }
  }

  lemma FoldReplaces(c: Compilers, w: World, acts: seq<Act>, i: nat, st: St, sig: Sig, g: Scope)
    requires ChainOk(c, acts, g, w.levels) && i < |acts| && StoreTyped(st, g)
    requires FoldExpr(c, acts[i].what).errors == 0
    ensures
      var e := FoldExpr(c, acts[i].what).e;
      && Replaces(c, acts, i, Act(acts[i].con, e)) && ActReady(e, g, w.levels)
      && (IsConstant(e) ==> e == TRUE)
  {
    assert acts[i] in acts;
    ActFoldSound(c, w, acts[i].what, st, sig, g);
    FoldBecomes(c, acts[i].what, g, w.levels);
  }

  lemma FoldStep(c: Compilers, w: World, acts: seq<Act>, i: nat, st: St, sig: Sig, g: Scope)
    requires ChainOk(c, acts, g, w.levels) && i < |acts| && StoreTyped(st, g)
    requires FoldExpr(c, acts[i].what).errors == 0
    ensures Step(c, w, acts, acts[i := Act(acts[i].con, FoldExpr(c, acts[i].what).e)], st, sig, g)
  {
    var a := acts[i];
    var a' := Act(a.con, FoldExpr(c, a.what).e);
    assert a in acts;
    Apart(acts, i, a');
    FoldAt(c, w, acts[..i], a, acts[i + 1..], st, sig, g);
    FoldReplaces(c, w, acts, i, st, sig, g);
    ReplaceKeepsOk(c, acts, i, a', g, w.levels);
    FoldBecomes(c, a.what, g, w.levels);
    FoldedVoid(c, acts, i, a', 0);
  }

  // ----- an overwritten set is replaced -----

  lemma {:induction false} OverwrittenThrough(acts: seq<Act>, i: nat, m: nat, j: nat)
    requires i < m <= j + 1 && j < |acts| && IsSet(acts[i].what) && SetShaped(acts[i].what) && i < j
    requires Overwritten(acts, i, j)
    ensures Through(acts[m..j + 1], Sure(acts[m - 1].what))
    decreases j + 1 - m
  {
    if m <= j {
      assert Smooth(acts, m);
      assert acts[m..j + 1][0] == acts[m] && acts[m..j + 1][1..] == acts[m + 1..j + 1];
      OverwrittenThrough(acts, i, m + 1, j);
    }
  }

  lemma OverwriteRun(w: World, acts: seq<Act>, i: nat, j: nat, st: St, sig: Sig)
    requires i < j < |acts| && SameTarget(acts[i].what, acts[j].what) && Overwritten(acts, i, j)
    requires forall a | a in acts :: SetShaped(a.what)
    ensures Better(RunChain(w, acts, true, st, sig),
                   RunChain(w, acts[i := acts[i].(what := TRUE)], true, st, sig))
  {
    var a := acts[i];
    OverwrittenThrough(acts, i, i + 1, j);
    var before, middle, after := acts[..i], acts[i + 1..j], acts[j + 1..];
    assert middle + [acts[j]] == acts[i + 1..j + 1];
    forall b | b in acts[i + 1..j + 1] ensures Target(a.what) !in ActReads(b.what) && SetShaped(b.what) {
      var m :| i < m <= j && b == acts[m];
    }
    OverwriteSound(w, before, a, middle, acts[j], after, true, st, sig);
    var a' := a.(what := TRUE);
    assert acts == before + [a] + (middle + [acts[j]] + after);
    assert acts[i := a'] == before + [a'] + (middle + [acts[j]] + after);
  }

  lemma OverwriteStep(c: Compilers, w: World, acts: seq<Act>, i: nat, j: nat, st: St, sig: Sig, g: Scope)
    requires ChainOk(c, acts, g, w.levels) && i < j < |acts| && SameTarget(acts[i].what, acts[j].what)
    ensures Step(c, w, acts, acts[i := acts[i].(what := TRUE)], st, sig, g)
  {
    assert Overwritten(acts, i, j);
    assert forall a | a in acts :: ActReady(a.what, g, w.levels) && SetShaped(a.what);
    OverwriteRun(w, acts, i, j, st, sig);
    ReplaceKeepsOk(c, acts, i, acts[i].(what := TRUE), g, w.levels);
    OverwrittenVoid(c, acts, i, j, 0);
  }

  // ----- a constant is taken out, alone or with everything after it -----

  function Dropped(acts: seq<Act>, i: nat): seq<Act>
    requires i < |acts|
  {
    if acts[i].con == NThen then acts[..i] else Without(acts, i)
  }

  lemma DropRuns(c: Compilers, w: World, acts: seq<Act>, i: nat, st: St, sig: Sig)
    requires i < |acts| && acts[i].what == TRUE && RemovableAt(c, acts, i)
    ensures RunChain(w, Dropped(acts, i), true, st, sig) == RunChain(w, acts, true, st, sig)
  {
    Apart(acts, i, acts[i]);
    if ReachedSure(c, acts, i) { ReachedSureEnds(c, acts, i); }
    RemoveSound(w, acts[..i], acts[i].con, acts[i + 1..], true, st, sig);
  }

  lemma DropStep(c: Compilers, w: World, acts: seq<Act>, i: nat, st: St, sig: Sig, g: Scope)
    requires ChainOk(c, acts, g, w.levels) && i < |acts| && acts[i].what == TRUE
    ensures Step(c, w, acts, Dropped(acts, i), st, sig, g)
  {
    assert RemovableAt(c, acts, i);
    DropRuns(c, w, acts, i, st, sig);
    if acts[i].con == NThen {
      CutKeepsOk(c, acts, i, g, w.levels);
      CutVoid(c, acts, i, 0);
    } else {
      RemoveKeepsOk(c, acts, i, g, w.levels);
      RemovedVoid(c, acts, i, 0);
    }
  }

  // ----- one pass -----

  lemma LookUpStep(
      c: Compilers, w: World, e: Expr, kept: seq<Act>, acts: seq<Act>, slots: map<string, Slot>,
      st: St, sig: Sig, g: Scope)
    requires acts != [] && e == acts[0].what && SetShaped(e) && SlotsOk(kept, slots)
    requires ChainOk(c, kept + acts, g, w.levels)
    ensures Step(c, w, kept + acts, LookUp(e, kept, slots).kept + acts, st, sig, g)
  {
    if IsSet(e) && Target(e) in slots && slots[Target(e)].At? {
      var k := slots[Target(e)].k;
      UpdateConcat(kept, acts, k, kept[k].(what := TRUE));
      OverwriteStep(c, w, kept + acts, k, |kept|, st, sig, g);
    }
  }

  lemma UpdateConcat(kept: seq<Act>, acts: seq<Act>, k: nat, a: Act)
    requires k < |kept|
    ensures (kept + acts)[k := a] == kept[k := a] + acts
    ensures (kept + acts)[k] == kept[k]
    ensures acts != [] ==> (kept + acts)[|kept|] == acts[0]
  {
  }

  lemma SplitFirst(kept: seq<Act>, acts: seq<Act>, a: Act)
    requires acts != []
    ensures (kept + acts)[|kept|] == acts[0]
    ensures (kept + acts)[|kept| := a] == kept + [a] + acts[1..]
  {
  }

  lemma FoldFirst(c: Compilers, w: World, kept: seq<Act>, acts: seq<Act>, st: St, sig: Sig, g: Scope)
    requires acts != [] && StoreTyped(st, g)
    requires ChainOk(c, kept + acts, g, w.levels) && FoldExpr(c, acts[0].what).errors == 0
    ensures
      var e := FoldExpr(c, acts[0].what).e;
      && Step(c, w, kept + acts, kept + [Act(acts[0].con, e)] + acts[1..], st, sig, g)
      && (IsConstant(e) ==> e == TRUE)
  {
    SplitFirst(kept, acts, Act(acts[0].con, FoldExpr(c, acts[0].what).e));
    FoldStep(c, w, kept + acts, |kept|, st, sig, g);
    FoldReplaces(c, w, kept + acts, |kept|, st, sig, g);
  }

  lemma DropFirst(c: Compilers, w: World, kept: seq<Act>, a: Act, rest: seq<Act>, st: St, sig: Sig, g: Scope)
    requires ChainOk(c, kept + [a] + rest, g, w.levels) && a.what == TRUE
    ensures Step(c, w, kept + [a] + rest, if CutsChain(a.con, a.what) then kept else kept + rest, st, sig, g)
  {
    var whole, n := kept + [a] + rest, |kept|;
    assert whole[n] == a && whole[..n] == kept && Without(whole, n) == kept + rest;
    DropStep(c, w, whole, n, st, sig, g);
  }

  // What the chain is once its first unseen action has been dealt with: the
  // actions kept, and those still to be seen.
  function AfterFirst(c: Compilers, a: Act, rest: seq<Act>, kept: seq<Act>): seq<Act> {
    var e := FoldExpr(c, a.what).e;
    if !IsConstant(e) then (kept + [Act(a.con, e)]) + rest
    else if CutsChain(a.con, e) then kept
    else kept + rest
  }

  lemma FirstStep(
      c: Compilers, w: World, acts: seq<Act>, kept: seq<Act>, slots: map<string, Slot>,
      st: St, sig: Sig, g: Scope)
    requires acts != [] && SetShaped(acts[0].what) && SlotsOk(kept, slots) && StoreTyped(st, g)
    requires ChainOk(c, kept + acts, g, w.levels) && FoldExpr(c, acts[0].what).errors == 0
    ensures Step(c, w, kept + acts,
                 AfterFirst(c, acts[0], acts[1..], LookUp(acts[0].what, kept, slots).kept), st, sig, g)
  {
    var a, rest := acts[0], acts[1..];
    var kept' := LookUp(a.what, kept, slots).kept;
    var a' := Act(a.con, FoldExpr(c, a.what).e);
    LookUpStep(c, w, a.what, kept, acts, slots, st, sig, g);
    FoldFirst(c, w, kept', acts, st, sig, g);
    var folded := kept' + [a'] + rest;
    StepTrans(c, w, kept + acts, kept' + acts, folded, st, sig, g);
    if IsConstant(a'.what) {
      DropFirst(c, w, kept', a', rest, st, sig, g);
      StepTrans(c, w, kept + acts, folded, AfterFirst(c, a, rest, kept'), st, sig, g);
    }
  }

  // A pass, once its first action has been dealt with.
  lemma PassFirst(c: Compilers, acts: seq<Act>, kept: seq<Act>, slots: map<string, Slot>)
    requires acts != [] && Roots(acts) && SlotsOk(kept, slots)
    ensures
      var a, rest := acts[0], acts[1..];
      var l, f, r := LookUp(a.what, kept, slots), FoldExpr(c, a.what), Pass(c, acts, kept, slots);
      && Roots(rest) && (r.errors == 0 ==> f.errors == 0)
      && (if !IsConstant(f.e) then
            && SlotsOk(l.kept + [Act(a.con, f.e)], l.slots)
            && var p := Pass(c, rest, l.kept + [Act(a.con, f.e)], l.slots);
               r.acts == p.acts && r.errors == f.errors + p.errors
          else if CutsChain(a.con, f.e) then r.acts == l.kept
          else
            && SlotsOk(l.kept, Forget(a.what, kept, l.slots))
            && var p := Pass(c, rest, l.kept, Forget(a.what, kept, l.slots));
               r.acts == p.acts && r.errors == f.errors + p.errors)
  {
    SlotsStay(c, acts[0], kept, slots);
  }

  lemma {:induction false} PassSound(
      c: Compilers, w: World, acts: seq<Act>, kept: seq<Act>, slots: map<string, Slot>,
      st: St, sig: Sig, g: Scope)
    requires Roots(acts) && SlotsOk(kept, slots) && StoreTyped(st, g)
    requires ChainOk(c, kept + acts, g, w.levels)
    requires Pass(c, acts, kept, slots).errors == 0
    ensures Step(c, w, kept + acts, Pass(c, acts, kept, slots).acts, st, sig, g)
    decreases acts
  {
    if acts == [] {
      assert kept + acts == kept;
    } else {
      var a, rest := acts[0], acts[1..];
      var l := LookUp(a.what, kept, slots);
      var e := FoldExpr(c, a.what).e;
      PassFirst(c, acts, kept, slots);
      assert SetShaped(a.what) by { assert a in acts; }
      FirstStep(c, w, acts, kept, slots, st, sig, g);
      var end := Pass(c, acts, kept, slots).acts;
      if !IsConstant(e) {
        PassSound(c, w, rest, l.kept + [Act(a.con, e)], l.slots, st, sig, g);
      } else if !CutsChain(a.con, e) {
        PassSound(c, w, rest, l.kept, Forget(a.what, kept, l.slots), st, sig, g);
      }
      StepTrans(c, w, kept + acts, AfterFirst(c, a, rest, l.kept), end, st, sig, g);
    }
  }

  // ----- all passes -----

  // The cleanup preserves the run of every chain that meets the conditions.
  lemma {:induction false} CleanChainSound(c: Compilers, w: World, acts: seq<Act>, st: St, sig: Sig, g: Scope)
    requires Roots(acts) && ChainOk(c, acts, g, w.levels) && StoreTyped(st, g)
    requires CleanChain(c, acts).errors == 0
    ensures Better(RunChain(w, acts, true, st, sig), RunChain(w, CleanChain(c, acts).acts, true, st, sig))
    decreases Weight(acts)
  {
    PassShrinks(c, acts, [], map[]);
    assert [] + acts == acts;
    PassSound(c, w, acts, [], map[], st, sig, g);
    var r := Pass(c, acts, [], map[]);
    if r.changed { CleanChainSound(c, w, r.acts, st, sig, g); }
  }

  // A typed store, its strings all the same.
  function Filled(g: Scope, s: string): (st: St)
    requires CURR_LEVEL in g ==> g[CURR_LEVEL] == TVInt
    requires ScopeOk(g)
    ensures StoreTyped(st, g)
    ensures forall x | x in g && x != CURR_LEVEL && g[x] == TVString :: st.vars[x] == StrV(s)
  {
    St(map x | x in g :: match g[x] case TVInt => IntV(0) case TVBool => BoolV(false) case _ => StrV(s), 0, false, [])
  }

  // The cleanup leaves nothing exactly when the guard says so.
  lemma {:induction false} EmptiedExact(c: Compilers, acts: seq<Act>, g: Scope, levels: seq<LevelDecl>)
    requires Roots(acts) && ChainOk(c, acts, g, levels) && (CURR_LEVEL in g ==> g[CURR_LEVEL] == TVInt)
    requires CleanChain(c, acts).errors == 0
    ensures CleanChain(c, acts).acts == [] <==> Empties(c, acts)
    decreases Weight(acts)
  {
    PassShrinks(c, acts, [], map[]);
    var r := Pass(c, acts, [], map[]);
    BusyChanges(c, acts);
    if r.changed {
      var w := World(levels, None, (f, vs, tr) => None, (tr, p, a) => false, (tr, x, y) => false);
      assert [] + acts == acts;
      PassSound(c, w, acts, [], map[], Filled(g, ""), Sig(0, 0), g);
      PassFolds(c, acts, [], map[], g, levels);
      EmptiedExact(c, r.acts, g, levels);
      if r.acts != [] && VoidFrom(c, r.acts, 0) { FoldedVoidBusy(c, r.acts); }
    } else {
      QuietPassKeeps(c, acts, [], map[]);
    }
  }
}
