// When the cleanup leaves nothing of a chain (tree/const.go), read off the
// chain as written.
module Emptied {
  import opened Types
  import opened Syntax
  import opened TypeCheck
  import opened Soundness
  import opened Fold
  import opened Chain
  import opened ChainFold
  import opened Conditions

  // From i on all actions become constants, up to the end of the chain or up
  // to one that cuts the rest off.
  predicate VoidFrom(c: Compilers, acts: seq<Act>, i: nat)
    requires i <= |acts|
    decreases |acts| - i
  {
    i == |acts| ||
    if acts[i].con == NThen then Goes(c, acts, i) else BecomesTrue(c, acts[i].what) && VoidFrom(c, acts, i + 1)
  }

  // The first pass finds something to do: a set of a variable to itself is
  // seen at once only if it is written as one.
  predicate Busy(c: Compilers, acts: seq<Act>) {
    exists i | 0 <= i < |acts| :: IsConstant(FoldExpr(c, acts[i].what).e) || SetLater(acts, i)
  }

  // The guard of the branch that drops a rule.
  predicate Empties(c: Compilers, acts: seq<Act>) {
    acts == [] || (Busy(c, acts) && VoidFrom(c, acts, 0))
  }

  // ----- each change of the cleanup keeps the verdict -----

  // A later set of the variable stays a set, because it may not read it.
  lemma LaterStays(c: Compilers, acts: seq<Act>, i: nat, j: nat)
    requires OverwritesOk(acts) && i < j < |acts| && SameTarget(acts[i].what, acts[j].what)
    ensures !BecomesTrue(c, acts[j].what)
    ensures forall m | i < m <= j :: acts[m].con != NThen
  {
    assert Overwritten(acts, i, j);
    assert Smooth(acts, j);
    FoldShrinks(c, acts[j].what.args[1]);
    assert forall m | i < m <= j :: Smooth(acts, m);
  }

  lemma FoldedGoes(c: Compilers, acts: seq<Act>, n: nat, a: Act, k: nat)
    requires OverwritesOk(acts) && Replaces(c, acts, n, a) && k < |acts|
    requires BecomesTrue(c, a.what) <==> BecomesTrue(c, acts[n].what)
    requires IsSet(acts[n].what) ==> SameTarget(a.what, acts[n].what) || a.what == TRUE
    ensures Goes(c, acts[n := a], k) <==> Goes(c, acts, k)
  {
    ReplaceGoes(c, acts, n, a, k);
    if SetLater(acts, k) && !BecomesTrue(c, acts[k].what) {
      var j :| k < j < |acts| && SameTarget(acts[k].what, acts[j].what);
      LaterStays(c, acts, k, j);
      assert SameTarget(acts[n := a][k].what, acts[n := a][j].what);
    }
  }

  lemma {:induction false} FoldedVoid(c: Compilers, acts: seq<Act>, n: nat, a: Act, k: nat)
    requires OverwritesOk(acts) && Replaces(c, acts, n, a) && k <= |acts|
    requires BecomesTrue(c, a.what) <==> BecomesTrue(c, acts[n].what)
    requires IsSet(acts[n].what) ==> SameTarget(a.what, acts[n].what) || a.what == TRUE
    ensures VoidFrom(c, acts[n := a], k) <==> VoidFrom(c, acts, k)
    decreases |acts| - k
  {
    if k < |acts| {
      FoldedGoes(c, acts, n, a, k);
      FoldedVoid(c, acts, n, a, k + 1);
    }
  }

  // No chain is void that gets to a set that stays.
  lemma {:induction false} StopsVoid(c: Compilers, acts: seq<Act>, k: nat, j: nat)
    requires k <= j < |acts| && !BecomesTrue(c, acts[j].what)
    requires forall m | k <= m <= j :: acts[m].con != NThen
    ensures !VoidFrom(c, acts, k)
    decreases j - k
  {
    if k < j { StopsVoid(c, acts, k + 1, j); }
  }

  lemma OverwrittenGoes(c: Compilers, acts: seq<Act>, i: nat, j: nat, k: nat)
    requires i < j < |acts| && SameTarget(acts[i].what, acts[j].what) && k < |acts|
    ensures Goes(c, acts[i := acts[i].(what := TRUE)], k) <==> Goes(c, acts, k)
  {
    var acts' := acts[i := acts[i].(what := TRUE)];
    if SetLater(acts, k) {
      var m :| k < m < |acts| && SameTarget(acts[k].what, acts[m].what);
      if m == i { assert SameTarget(acts[k].what, acts[j].what); }
      if k != i { assert SameTarget(acts'[k].what, acts'[if m == i then j else m].what); }
    }
    if SetLater(acts', k) {
      var m :| k < m < |acts| && SameTarget(acts'[k].what, acts'[m].what);
      assert SameTarget(acts[k].what, acts[m].what);
    }
  }

  lemma {:induction false} OverwrittenVoid(c: Compilers, acts: seq<Act>, i: nat, j: nat, k: nat)
    requires OverwritesOk(acts) && i < j < |acts| && SameTarget(acts[i].what, acts[j].what) && k <= |acts|
    ensures VoidFrom(c, acts[i := acts[i].(what := TRUE)], k) <==> VoidFrom(c, acts, k)
    decreases |acts| - k
  {
    if k < |acts| {
      OverwrittenGoes(c, acts, i, j, k);
      OverwrittenVoid(c, acts, i, j, k + 1);
      if k == i {
        LaterStays(c, acts, i, j);
        StopsVoid(c, acts, i + 1, j);
      }
    }
  }

  lemma {:induction false} RemovedVoid(c: Compilers, acts: seq<Act>, p: nat, k: nat)
    requires p < |acts| && acts[p].what == TRUE && acts[p].con != NThen && k < |acts|
    ensures VoidFrom(c, Without(acts, p), k) <==> VoidFrom(c, acts, Skip(k, p))
    ensures VoidFrom(c, Without(acts, p), k) <==> VoidFrom(c, acts, if k <= p then k else k + 1)
    decreases |acts| - k
  {
    if k < |acts| - 1 {
      RemoveGoes(c, acts, p, k);
      RemovedVoid(c, acts, p, k + 1);
    }
  }

  lemma {:induction false} CutVoid(c: Compilers, acts: seq<Act>, p: nat, k: nat)
    requires OverwritesOk(acts) && k <= p < |acts| && acts[p] == Act(NThen, TRUE)
    ensures VoidFrom(c, acts[..p], k) <==> VoidFrom(c, acts, k)
    decreases p - k
  {
    if k < p {
      CutVoid(c, acts, p, k + 1);
      CutGoes(c, acts, p, k);
      if SetLater(acts, k) {
        var j :| k < j < |acts| && SameTarget(acts[k].what, acts[j].what);
        LaterStays(c, acts, k, j);
        assert j < p;
        assert SameTarget(acts[..p][k].what, acts[..p][j].what);
      }
    }
  }

  // ----- what a pass reports, exactly -----

  // The action makes the pass report a change, given the variables set so far.
  predicate Stirs(c: Compilers, acts: seq<Act>, i: nat, seen: set<string>)
    requires i < |acts|
  {
    || IsConstant(FoldExpr(c, acts[i].what).e)
    || (IsSet(acts[i].what) && SetShaped(acts[i].what) && Target(acts[i].what) in seen)
    || exists j | 0 <= j < i :: SameTarget(acts[j].what, acts[i].what)
  }

  lemma StirsRest(c: Compilers, acts: seq<Act>, i: nat, seen: set<string>)
    requires 0 < i < |acts|
    ensures
      var a := acts[0].what;
      Stirs(c, acts, i, seen)
      <==> Stirs(c, acts[1..], i - 1, if IsSet(a) && SetShaped(a) then seen + {Target(a)} else seen)
  {
    var a := acts[0].what;
    var seen' := if IsSet(a) && SetShaped(a) then seen + {Target(a)} else seen;
    if Stirs(c, acts, i, seen) {
      if j :| 0 <= j < i && SameTarget(acts[j].what, acts[i].what) {
        if j > 0 { assert SameTarget(acts[1..][j - 1].what, acts[1..][i - 1].what); }
      }
    }
    if Stirs(c, acts[1..], i - 1, seen') {
      if j :| 0 <= j < i - 1 && SameTarget(acts[1..][j].what, acts[1..][i - 1].what) {
        assert SameTarget(acts[j + 1].what, acts[i].what);
      }
    }
  }

  // With every earlier set still in place, a pass reports a change exactly
  // when some action stirs.
  lemma {:induction false} PassChanges(c: Compilers, acts: seq<Act>, kept: seq<Act>, slots: map<string, Slot>)
    requires Roots(acts) && SlotsOk(kept, slots) && forall v | v in slots :: slots[v].At?
    ensures Pass(c, acts, kept, slots).changed <==> exists i | 0 <= i < |acts| :: Stirs(c, acts, i, slots.Keys)
    decreases acts
  {
    if acts != [] {
      var a := acts[0];
      var l := LookUp(a.what, kept, slots);
      var f := FoldExpr(c, a.what).e;
      SlotsStay(c, a, kept, slots);
      assert Stirs(c, acts, 0, slots.Keys) <==> IsConstant(f) || l.changed;
      if !IsConstant(f) && !l.changed {
        PassChanges(c, acts[1..], l.kept + [Act(a.con, f)], l.slots);
        forall i | 0 < i < |acts| ensures Stirs(c, acts, i, slots.Keys) <==> Stirs(c, acts[1..], i - 1, l.slots.Keys) {
          StirsRest(c, acts, i, slots.Keys);
        }
        if i :| 0 <= i < |acts[1..]| && Stirs(c, acts[1..], i, l.slots.Keys) {
          assert Stirs(c, acts, i + 1, slots.Keys);
        }
      }
    }
  }

  lemma BusyChanges(c: Compilers, acts: seq<Act>)
    requires Roots(acts)
    ensures Pass(c, acts, [], map[]).changed <==> Busy(c, acts)
  {
    var none: map<string, Slot> := map[];
    PassChanges(c, acts, [], none);
    if i :| 0 <= i < |acts| && Stirs(c, acts, i, none.Keys) {
      if j :| 0 <= j < i && SameTarget(acts[j].what, acts[i].what) { assert SetLater(acts, j); }
    }
    if i :| 0 <= i < |acts| && SetLater(acts, i) {
      var j :| i < j < |acts| && SameTarget(acts[i].what, acts[j].what);
      assert Stirs(c, acts, j, none.Keys);
    }
    if i :| 0 <= i < |acts| && IsConstant(FoldExpr(c, acts[i].what).e) {
      assert Stirs(c, acts, i, none.Keys);
    }
  }

  lemma {:induction false} QuietPassKeeps(c: Compilers, acts: seq<Act>, kept: seq<Act>, slots: map<string, Slot>)
    requires Roots(acts) && SlotsOk(kept, slots) && !Pass(c, acts, kept, slots).changed
    ensures |Pass(c, acts, kept, slots).acts| == |kept| + |acts|
    decreases acts
  {
    if acts != [] {
      var a := acts[0];
      var l := LookUp(a.what, kept, slots);
      SlotsStay(c, a, kept, slots);
      QuietPassKeeps(c, acts[1..], l.kept + [Act(a.con, FoldExpr(c, a.what).e)], l.slots);
    }
  }

  // ----- after a pass all is folded -----

  lemma {:induction false} TypedHasNoSet(e: Expr)
    requires TypeOf(e) != TVUndef
    ensures NoSet(e)
    decreases e
  {
    match e
    case Call(f, args, _) => TypedHaveNoSet(SigOf(f), args, 0, args);
    case Bin(_, l, r, _) =>
      TypedHasNoSet(l);
      TypedHasNoSet(r);
    case Un(_, r, _) => TypedHasNoSet(r);
    case _ =>
  }

  lemma {:induction false} TypedHaveNoSet(s: FnSig, args: seq<Expr>, i: nat, rest: seq<Expr>)
    requires i <= |args| && rest == args[i..] && ArgsTyped(s, args, i, rest)
    ensures NoSetAll(rest)
    decreases rest
  {
    if rest != [] {
      TypedHasNoSet(rest[0]);
      TypedHaveNoSet(s, args, i + 1, rest[1..]);
    }
  }

  lemma RightHasNoSet(e: Expr, g: Scope)
    requires ActSafe(e, g) && IsSet(e)
    ensures NoSet(e.args[1])
  {
    assert e.args[1..] == [e.args[1]];
    assert ArgsTyped(SigOf(FSet), e.args, 1, e.args[1..]);
    TypedHasNoSet(e.args[1]);
  }

  // The right side of a set is folded already.
  predicate RightFolded(c: Compilers, e: Expr) {
    IsSet(e) && SetShaped(e) ==> FoldExpr(c, e.args[1]).e == e.args[1]
  }

  predicate RightsFolded(c: Compilers, acts: seq<Act>) {
    forall a | a in acts :: RightFolded(c, a.what)
  }

  lemma FoldSetRight(c: Compilers, e: Expr, g: Scope)
    requires ActSafe(e, g) && IsSet(e) && !SameSymbol(e.args[0], e.args[1])
    ensures FoldExpr(c, e).e == Call(FSet, [e.args[0], FoldExpr(c, e.args[1]).e], e.dt)
  {
    assert e.args == [e.args[0], e.args[1]];
    FoldCallIsFoldArgs(c, e);
    FoldPair(c, e.args[0], e.args[1]);
  }

  // Folding an action decides nothing about whether it becomes a constant.
  lemma FoldBecomes(c: Compilers, e: Expr, g: Scope, levels: seq<LevelDecl>)
    requires ActReady(e, g, levels)
    ensures BecomesTrue(c, FoldExpr(c, e).e) <==> BecomesTrue(c, e)
    ensures IsSet(e) ==> SameTarget(FoldExpr(c, e).e, e) || FoldExpr(c, e).e == TRUE
    ensures RightFolded(c, FoldExpr(c, e).e)
  {
    ActFoldShape(c, e, g, levels);
    if IsSet(e) {
      if !SameSymbol(e.args[0], e.args[1]) {
        FoldSetRight(c, e, g);
        RightHasNoSet(e, g);
        FoldIdempotent(c, e.args[1]);
      }
    }
  }

  lemma {:induction false} PassFolds(
      c: Compilers, acts: seq<Act>, kept: seq<Act>, slots: map<string, Slot>, g: Scope, levels: seq<LevelDecl>)
    requires Roots(acts) && SlotsOk(kept, slots) && RightsFolded(c, kept)
    requires forall a | a in acts :: ActReady(a.what, g, levels)
    ensures RightsFolded(c, Pass(c, acts, kept, slots).acts)
    decreases acts
  {
    if acts != [] {
      var a := acts[0];
      var l := LookUp(a.what, kept, slots);
      var f := FoldExpr(c, a.what).e;
      FoldBecomes(c, a.what, g, levels);
      SlotsStay(c, a, kept, slots);
      if !IsConstant(f) {
        PassFolds(c, acts[1..], l.kept + [Act(a.con, f)], l.slots, g, levels);
      } else if !CutsChain(a.con, f) {
        PassFolds(c, acts[1..], l.kept, Forget(a.what, kept, l.slots), g, levels);
      }
    }
  }

  // Then the first action of a void chain is enough to keep the passes going.
  lemma FoldedVoidBusy(c: Compilers, acts: seq<Act>)
    requires acts != [] && RightsFolded(c, acts) && VoidFrom(c, acts, 0)
    ensures Busy(c, acts)
  {
    assert acts[0] in acts;
    assert BecomesTrue(c, acts[0].what) ==> IsConstant(FoldExpr(c, acts[0].what).e);
  }
}
