// The cleanup of a rule's chain (the loop in Prog.Fold, tree/const.go), as a
// function: it ends, and what it leaves has no constant and no variable set
// twice.
module ChainFold {
  import opened Syntax
  import opened TypeCheck
  import opened Fold
  import opened Chain

  // ----- the cleanup as a function -----

  // Where a variable was last set: an action kept so far, or one already
  // dropped.
  datatype Slot = At(k: nat) | Gone

  datatype Cleaned = Cleaned(acts: seq<Act>, changed: bool, errors: nat)

  // An action as the type checker lets it pass, or the constant that the
  // cleanup puts in its place.
  predicate Root(e: Expr) {
    (e.Call? || e == TRUE) && SetShaped(e)
  }

  predicate Roots(acts: seq<Act>) {
    forall a | a in acts :: Root(a.what)
  }

  // The state after the set at the front of the rest has been looked up: an
  // earlier set of its variable, if still there, becomes a constant.
  datatype Looked = Looked(kept: seq<Act>, slots: map<string, Slot>, changed: bool)

  predicate SlotsOk(kept: seq<Act>, slots: map<string, Slot>) {
    && (forall v | v in slots && slots[v].At? :: slots[v].k < |kept| && IsSet(kept[slots[v].k].what)
          && SetShaped(kept[slots[v].k].what) && Target(kept[slots[v].k].what) == v)
  }

  function LookUp(e: Expr, kept: seq<Act>, slots: map<string, Slot>): (r: Looked)
    requires SetShaped(e) && SlotsOk(kept, slots)
    ensures |r.kept| == |kept|
  {
    if !IsSet(e) then Looked(kept, slots, false)
    else
      var v := Target(e);
      if v !in slots then Looked(kept, slots[v := At(|kept|)], false)
      else if slots[v].Gone? then Looked(kept, slots, false)
      else
        var k := slots[v].k;
        Looked(kept[k := kept[k].(what := TRUE)], slots[v := At(|kept|)], true)
  }

  // A dropped action is no longer the place where its variable was set.
  function Forget(e: Expr, kept: seq<Act>, slots: map<string, Slot>): map<string, Slot>
    requires SetShaped(e)
  {
    if IsSet(e) && Target(e) in slots && slots[Target(e)] == At(|kept|) then slots[Target(e) := Gone]
    else slots
  }

  predicate CutsChain(con: Con, e: Expr)
    requires IsConstant(e)
  {
    var b := BoolField(ConstValue(e));
    (b && con == NThen) || (!b && con == Then)
  }

  // The slots stay in order, whether the action looked up is kept or dropped.
  lemma SlotsStay(c: Compilers, a: Act, kept: seq<Act>, slots: map<string, Slot>)
    requires Root(a.what) && SlotsOk(kept, slots)
    ensures
      var l, e := LookUp(a.what, kept, slots), FoldExpr(c, a.what).e;
      if IsConstant(e) then SlotsOk(l.kept, Forget(a.what, kept, l.slots))
      else SlotsOk(l.kept + [Act(a.con, e)], l.slots)
  {
    FoldKeepsSet(c, a.what);
  }

  function Pass(c: Compilers, acts: seq<Act>, kept: seq<Act>, slots: map<string, Slot>): Cleaned
    requires Roots(acts) && SlotsOk(kept, slots)
    decreases acts
  {
    if acts == [] then Cleaned(kept, false, 0)
    else
      var a := acts[0];
      var l := LookUp(a.what, kept, slots);
      var f := FoldExpr(c, a.what);
      SlotsStay(c, a, kept, slots);
      if IsConstant(f.e) then
        if CutsChain(a.con, f.e) then Cleaned(l.kept, true, f.errors)
        else
          var r := Pass(c, acts[1..], l.kept, Forget(a.what, kept, l.slots));
          Cleaned(r.acts, true, f.errors + r.errors)
      else
        var r := Pass(c, acts[1..], l.kept + [Act(a.con, f.e)], l.slots);
        Cleaned(r.acts, l.changed || r.changed, f.errors + r.errors)
  }

  // Folding leaves a set call a set call of the same variable, or makes it a
  // constant.
  lemma FoldKeepsSet(c: Compilers, e: Expr)
    requires Root(e)
    ensures IsSet(e) ==> SameTarget(FoldExpr(c, e).e, e) || FoldExpr(c, e).e == TRUE
    ensures IsSet(FoldExpr(c, e).e) ==> IsSet(e)
    ensures IsConstant(FoldExpr(c, e).e) || Root(FoldExpr(c, e).e)
  {
    if IsSet(e) && !SameSymbol(e.args[0], e.args[1]) {
      assert e.args == [e.args[0], e.args[1]];
      FoldPair(c, e.args[0], e.args[1]);
      assert FoldExpr(c, e).e == Call(FSet, FoldArgs(c, FSet, e.args).es, e.dt);
    }
  }

  // ----- the cleanup ends -----

  function SetCount(acts: seq<Act>): nat {
    if acts == [] then 0 else Count(IsSet(acts[0].what)) + SetCount(acts[1..])
  }

  // Actions, and set calls once more.
  function Weight(acts: seq<Act>): nat {
    |acts| + SetCount(acts)
  }

  lemma {:induction false} SetCountConcat(a: seq<Act>, b: seq<Act>)
    ensures SetCount(a + b) == SetCount(a) + SetCount(b)
  {
    if a == [] {
      assert a + b == b;
    } else {
      assert (a + b)[1..] == a[1..] + b;
      SetCountConcat(a[1..], b);
    }
  }

  lemma SetCountUpdate(acts: seq<Act>, k: nat)
    requires k < |acts| && IsSet(acts[k].what)
    ensures SetCount(acts[k := acts[k].(what := TRUE)]) == SetCount(acts) - 1
  {
    var a := acts[k];
    var a' := a.(what := TRUE);
    assert acts == acts[..k] + ([a] + acts[k + 1..]);
    assert acts[k := a'] == acts[..k] + ([a'] + acts[k + 1..]);
    assert ([a] + acts[k + 1..])[1..] == acts[k + 1..] == ([a'] + acts[k + 1..])[1..];
    SetCountConcat(acts[..k], [a] + acts[k + 1..]);
    SetCountConcat(acts[..k], [a'] + acts[k + 1..]);
  }

  // A pass that reports a change has removed an action, or turned a set call
  // kept earlier in the same pass into a constant.
  lemma {:induction false} PassShrinks(c: Compilers, acts: seq<Act>, kept: seq<Act>, slots: map<string, Slot>)
    requires Roots(acts) && SlotsOk(kept, slots)
    ensures
      var r := Pass(c, acts, kept, slots);
      && Weight(r.acts) <= Weight(kept) + Weight(acts)
      && (r.changed ==> Weight(r.acts) < Weight(kept) + Weight(acts))
      && (Roots(kept) ==> Roots(r.acts))
    decreases acts
  {
    if acts != [] {
      var a := acts[0];
      var l := LookUp(a.what, kept, slots);
      var f := FoldExpr(c, a.what).e;
      FoldKeepsSet(c, a.what);
      LookUpShrinks(a.what, kept, slots);
      if !IsConstant(f) {
        KeepGrows(l.kept, Act(a.con, f));
        PassShrinks(c, acts[1..], l.kept + [Act(a.con, f)], l.slots);
      } else if !CutsChain(a.con, f) {
        PassShrinks(c, acts[1..], l.kept, Forget(a.what, kept, l.slots));
      }
    }
  }

  lemma LookUpShrinks(e: Expr, kept: seq<Act>, slots: map<string, Slot>)
    requires SetShaped(e) && SlotsOk(kept, slots)
    ensures
      var l := LookUp(e, kept, slots);
      && (Weight(l.kept) == Weight(kept) - Count(l.changed))
      && (Roots(kept) ==> Roots(l.kept))
  {
    if IsSet(e) && Target(e) in slots && slots[Target(e)].At? {
      SetCountUpdate(kept, slots[Target(e)].k);
    }
  }

  lemma KeepGrows(kept: seq<Act>, a: Act)
    ensures Weight(kept + [a]) == Weight(kept) + 1 + Count(IsSet(a.what))
  {
    SetCountConcat(kept, [a]);
    assert [a][1..] == [];
  }

  // Passes are repeated until one changes nothing.
  function CleanChain(c: Compilers, acts: seq<Act>): Cleaned
    requires Roots(acts)
    decreases Weight(acts)
  {
    PassShrinks(c, acts, [], map[]);
    var r := Pass(c, acts, [], map[]);
    if r.changed then
      var s := CleanChain(c, r.acts);
      Cleaned(s.acts, true, r.errors + s.errors)
    else r
  }

  // No constant is left, and no variable is set twice.
  predicate Tidy(acts: seq<Act>) {
    && (forall a | a in acts :: !IsConstant(a.what))
    && forall i, j | 0 <= i < j < |acts| :: !SameTarget(acts[i].what, acts[j].what)
  }

  // Every set call kept so far is where the table says.
  predicate SlotsComplete(kept: seq<Act>, slots: map<string, Slot>) {
    forall i | 0 <= i < |kept| && IsSet(kept[i].what) ::
      SetShaped(kept[i].what) && Target(kept[i].what) in slots && slots[Target(kept[i].what)] == At(i)
  }

  // The table after an action has been kept and no earlier set replaced.
  predicate AllKept(kept: seq<Act>, slots: map<string, Slot>) {
    SlotsOk(kept, slots) && SlotsComplete(kept, slots) && forall v | v in slots :: slots[v].At?
  }

  lemma KeepSlots(e: Expr, kept: seq<Act>, slots: map<string, Slot>, a: Act)
    requires SetShaped(e) && AllKept(kept, slots) && !LookUp(e, kept, slots).changed
    requires (IsSet(a.what) ==> SameTarget(a.what, e)) && (IsSet(e) ==> IsSet(a.what))
    ensures AllKept(kept + [a], LookUp(e, kept, slots).slots)
  {
  }

  lemma KeepTidy(e: Expr, kept: seq<Act>, slots: map<string, Slot>, a: Act)
    requires SetShaped(e) && AllKept(kept, slots) && !LookUp(e, kept, slots).changed && Tidy(kept)
    requires (IsSet(a.what) ==> SameTarget(a.what, e)) && !IsConstant(a.what)
    ensures Tidy(kept + [a])
  {
    var kept' := kept + [a];
    forall i, j | 0 <= i < j < |kept'| ensures !SameTarget(kept'[i].what, kept'[j].what) {
      assert kept'[i] == kept[i];
      if j < |kept| { assert kept'[j] == kept[j]; }
    }
  }

  lemma {:induction false} QuietPassTidy(c: Compilers, acts: seq<Act>, kept: seq<Act>, slots: map<string, Slot>)
    requires Roots(acts) && AllKept(kept, slots) && Tidy(kept) && !Pass(c, acts, kept, slots).changed
    ensures Tidy(Pass(c, acts, kept, slots).acts)
    decreases acts
  {
    if acts != [] {
      var a := acts[0];
      var l := LookUp(a.what, kept, slots);
      var a' := Act(a.con, FoldExpr(c, a.what).e);
      FoldKeepsSet(c, a.what);
      assert !IsConstant(a'.what) && !l.changed;
      KeepSlots(a.what, kept, slots, a');
      KeepTidy(a.what, kept, slots, a');
      QuietPassTidy(c, acts[1..], kept + [a'], l.slots);
    }
  }

  lemma {:induction false} CleanChainTidy(c: Compilers, acts: seq<Act>)
    requires Roots(acts)
    ensures Tidy(CleanChain(c, acts).acts)
    decreases Weight(acts)
  {
    PassShrinks(c, acts, [], map[]);
    var r := Pass(c, acts, [], map[]);
    if r.changed { CleanChainTidy(c, r.acts); } else { QuietPassTidy(c, acts, [], map[]); }
  }
}
