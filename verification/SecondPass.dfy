// Errors that only a later pass of the cleanup reports (tree/const.go): the
// argument that payload and topicmatches have compiled in one pass is no
// string constant any more in the next.
module SecondPass {
  import opened Types
  import opened Syntax
  import opened TypeCheck
  import opened Soundness
  import opened Fold
  import opened Chain
  import opened ChainFold
  import opened Emptied

  // How many actions a pass gets to.
  function Seen(c: Compilers, acts: seq<Act>): (n: nat)
    ensures n <= |acts|
  {
    if acts == [] then 0
    else
      var f := FoldExpr(c, acts[0].what).e;
      if IsConstant(f) && CutsChain(acts[0].con, f) then 1 else 1 + Seen(c, acts[1..])
  }

  function ErrorsIn(c: Compilers, acts: seq<Act>): nat {
    if acts == [] then 0 else FoldExpr(c, acts[0].what).errors + ErrorsIn(c, acts[1..])
  }

  function PatternsIn(acts: seq<Act>): nat {
    if acts == [] then 0 else Patterns(acts[0].what) + PatternsIn(acts[1..])
  }

  // A pass reports the errors of the actions it gets to.
  lemma {:induction false} PassErrors(c: Compilers, acts: seq<Act>, kept: seq<Act>, slots: map<string, Slot>)
    requires Roots(acts) && SlotsOk(kept, slots)
    ensures Pass(c, acts, kept, slots).errors == ErrorsIn(c, acts[..Seen(c, acts)])
    decreases acts
  {
    if acts != [] {
      var a := acts[0];
      var l := LookUp(a.what, kept, slots);
      var f := FoldExpr(c, a.what).e;
      SlotsStay(c, a, kept, slots);
      SeenErrors(c, acts);
      if !IsConstant(f) {
        PassErrors(c, acts[1..], l.kept + [Act(a.con, f)], l.slots);
      } else if !CutsChain(a.con, f) {
        PassErrors(c, acts[1..], l.kept, Forget(a.what, kept, l.slots));
      }
    }
  }

  lemma SeenErrors(c: Compilers, acts: seq<Act>)
    requires acts != []
    ensures
      var f, rest := FoldExpr(c, acts[0].what), acts[1..];
      ErrorsIn(c, acts[..Seen(c, acts)]) == f.errors +
        if IsConstant(f.e) && CutsChain(acts[0].con, f.e) then 0 else ErrorsIn(c, rest[..Seen(c, rest)])
  {
    var seen := acts[..Seen(c, acts)];
    assert seen[0] == acts[0] && seen[1..] == acts[1..][..Seen(c, acts) - 1];
  }

  // ----- an action folded before -----

  // An action without actions in its arguments, that has been folded without
  // an error.
  predicate Refolded(c: Compilers, e: Expr) {
    e == TRUE || (RootPlain(e) && FoldExpr(c, e).errors == Patterns(e))
  }

  predicate RootPlain(e: Expr) {
    e.Call? && IsAction(e.fn) && NoSetAll(e.args) && SetShaped(e)
  }

  lemma SafeIsPlain(e: Expr, g: Scope)
    requires ActSafe(e, g)
    ensures RootPlain(e)
  {
    TypedHaveNoSet(SigOf(e.fn), e.args, 0, e.args);
  }

  lemma PlainFolds(c: Compilers, e: Expr)
    requires RootPlain(e) && FoldExpr(c, e).errors == 0
    ensures Refolded(c, FoldExpr(c, e).e) && Patterns(FoldExpr(c, e).e) <= Patterns(e)
  {
    var args := e.args;
    if e.fn == FSet && SameSymbol(args[0], args[1]) {
    } else if args != [] {
      FoldCallIsFoldArgs(c, e);
      SecondFoldAll(c, args);
      FoldAllKeepsCalls(c, args);
      RefoldCall(c, e.fn, FoldAll(c, args).es, e.dt);
      FoldKeepsSet(c, e);
    }
  }

  lemma RefoldCall(c: Compilers, f: Fn, es: seq<Expr>, dt: Type)
    requires IsAction(f) && es != [] && (f == FSet ==> |es| == 2) && FoldAll(c, es).errors == PatternsAll(es)
    ensures FoldExpr(c, Call(f, es, dt)).errors == Patterns(Call(f, es, dt))
  {
    if f == FSet && SameSymbol(es[0], es[1]) {
      assert es[1..] == [es[1]] && [es[1]][1..] == [];
      assert PatternsAll(es) == Patterns(es[0]) + PatternsAll(es[1..]);
      assert PatternsAll(es[1..]) == Patterns(es[1]) + PatternsAll([]);
    } else {
      FoldCallIsFoldArgs(c, Call(f, es, dt));
    }
  }

  // ----- the later passes -----

  predicate AllPlain(acts: seq<Act>) {
    forall a | a in acts :: a.what == TRUE || RootPlain(a.what)
  }

  // Folded before, and with nothing compiled in it.
  predicate Settled(c: Compilers, acts: seq<Act>) {
    forall a | a in acts :: Refolded(c, a.what) && Patterns(a.what) == 0
  }

  lemma {:induction false} PassRefolds(c: Compilers, acts: seq<Act>, kept: seq<Act>, slots: map<string, Slot>)
    requires Roots(acts) && SlotsOk(kept, slots) && AllPlain(acts) && Pass(c, acts, kept, slots).errors == 0
    requires forall a | a in kept :: Refolded(c, a.what)
    ensures forall a | a in Pass(c, acts, kept, slots).acts :: Refolded(c, a.what)
    decreases acts
  {
    if acts != [] {
      var a := acts[0];
      var l := LookUp(a.what, kept, slots);
      var f := FoldExpr(c, a.what).e;
      SlotsStay(c, a, kept, slots);
      if a.what != TRUE { PlainFolds(c, a.what); }
      if !IsConstant(f) {
        PassRefolds(c, acts[1..], l.kept + [Act(a.con, f)], l.slots);
      } else if !CutsChain(a.con, f) {
        PassRefolds(c, acts[1..], l.kept, Forget(a.what, kept, l.slots));
      }
    }
  }

  // Among the actions a pass gets to, none with anything compiled stays so.
  lemma {:induction false} PassSettles(c: Compilers, acts: seq<Act>, kept: seq<Act>, slots: map<string, Slot>)
    requires Roots(acts) && SlotsOk(kept, slots) && AllPlain(acts) && Pass(c, acts, kept, slots).errors == 0
    requires PatternsIn(acts[..Seen(c, acts)]) == 0 && Settled(c, kept)
    ensures Settled(c, Pass(c, acts, kept, slots).acts)
    decreases acts
  {
    if acts != [] {
      var a := acts[0];
      var l := LookUp(a.what, kept, slots);
      var f := FoldExpr(c, a.what).e;
      SlotsStay(c, a, kept, slots);
      SeenPatterns(c, acts);
      if a.what != TRUE { PlainFolds(c, a.what); }
      if !IsConstant(f) {
        PassSettles(c, acts[1..], l.kept + [Act(a.con, f)], l.slots);
      } else if !CutsChain(a.con, f) {
        PassSettles(c, acts[1..], l.kept, Forget(a.what, kept, l.slots));
      }
    }
  }

  lemma SeenPatterns(c: Compilers, acts: seq<Act>)
    requires acts != []
    ensures
      var f, rest := FoldExpr(c, acts[0].what).e, acts[1..];
      PatternsIn(acts[..Seen(c, acts)]) == Patterns(acts[0].what) +
        if IsConstant(f) && CutsChain(acts[0].con, f) then 0 else PatternsIn(rest[..Seen(c, rest)])
  {
    var seen := acts[..Seen(c, acts)];
    assert seen[0] == acts[0] && seen[1..] == acts[1..][..Seen(c, acts) - 1];
  }

  // What a pass reports of actions folded before.
  lemma {:induction false} RefoldedErrors(c: Compilers, acts: seq<Act>)
    requires forall a | a in acts :: Refolded(c, a.what)
    ensures ErrorsIn(c, acts) == PatternsIn(acts)
    decreases acts
  {
    if acts != [] {
      assert acts[0] in acts;
      RefoldedErrors(c, acts[1..]);
    }
  }

  lemma {:induction false} SettledPatterns(c: Compilers, acts: seq<Act>)
    requires Settled(c, acts)
    ensures PatternsIn(acts) == 0
    decreases acts
  {
    if acts != [] {
      assert acts[0] in acts;
      SettledPatterns(c, acts[1..]);
    }
  }

  lemma PassKeepsRoots(c: Compilers, acts: seq<Act>)
    requires Roots(acts) && AllPlain(acts) && Pass(c, acts, [], map[]).errors == 0
    ensures Roots(Pass(c, acts, [], map[]).acts) && AllPlain(Pass(c, acts, [], map[]).acts)
    ensures forall a | a in Pass(c, acts, [], map[]).acts :: Refolded(c, a.what)
  {
    PassShrinks(c, acts, [], map[]);
    PassRefolds(c, acts, [], map[]);
  }

  // Nothing compiled is left: no later pass reports an error.
  lemma {:induction false} SettledClean(c: Compilers, acts: seq<Act>)
    requires Roots(acts) && Settled(c, acts)
    ensures CleanChain(c, acts).errors == 0
    decreases Weight(acts)
  {
    var r := Pass(c, acts, [], map[]);
    PassShrinks(c, acts, [], map[]);
    PassErrors(c, acts, [], map[]);
    var seen := acts[..Seen(c, acts)];
    assert forall a | a in seen :: a in acts;
    RefoldedErrors(c, seen);
    SettledPatterns(c, seen);
    if r.changed {
      PassSettles(c, acts, [], map[]);
      SettledClean(c, r.acts);
    }
  }

  lemma CleanStep(c: Compilers, acts: seq<Act>)
    requires Roots(acts) && Pass(c, acts, [], map[]).changed
    ensures
      var r := Pass(c, acts, [], map[]);
      Roots(r.acts) && CleanChain(c, acts).errors == r.errors + CleanChain(c, r.acts).errors
  {
    PassShrinks(c, acts, [], map[]);
  }

  // A chain whose actions all fold without an error is rejected exactly if a
  // second pass is made, and it gets to an action with something compiled.
  lemma LaterErrorsExact(c: Compilers, acts: seq<Act>, g: Scope)
    requires Roots(acts) && forall a | a in acts :: ActSafe(a.what, g)
    requires Pass(c, acts, [], map[]).errors == 0
    ensures
      var r := Pass(c, acts, [], map[]);
      CleanChain(c, acts).errors > 0 <==> r.changed && PatternsIn(r.acts[..Seen(c, r.acts)]) > 0
  {
    forall a | a in acts ensures RootPlain(a.what) { SafeIsPlain(a.what, g); }
    var r := Pass(c, acts, [], map[]);
    PassShrinks(c, acts, [], map[]);
    PassKeepsRoots(c, acts);
    if r.changed { SecondPassErrors(c, r.acts); }
  }

  lemma SecondPassErrors(c: Compilers, acts: seq<Act>)
    requires Roots(acts) && AllPlain(acts) && forall a | a in acts :: Refolded(c, a.what)
    ensures CleanChain(c, acts).errors > 0 <==> PatternsIn(acts[..Seen(c, acts)]) > 0
  {
    var r := Pass(c, acts, [], map[]);
    PassShrinks(c, acts, [], map[]);
    PassErrors(c, acts, [], map[]);
    var seen := acts[..Seen(c, acts)];
    assert forall a | a in seen :: a in acts;
    RefoldedErrors(c, seen);
    if PatternsIn(seen) == 0 && r.changed {
      PassSettles(c, acts, [], map[]);
      SettledClean(c, r.acts);
    }
  }
}
