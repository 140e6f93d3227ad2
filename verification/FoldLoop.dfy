// The cleanup loop of Prog.Fold as it is written (tree/const.go).  The actions
// of a pass are cells that are written in place: a table remembers the cell of
// the last set of each variable, and a cell kept earlier in the pass may be
// rewritten through it.  A cell is named by its position in the array.
module FoldLoop {
  import opened Syntax
  import opened Fold
  import opened Chain
  import opened ChainFold

  // Cells in order, all before the given bound.
  ghost predicate Increasing(at: seq<nat>, bound: nat) {
    && (forall k | 0 <= k < |at| :: at[k] < bound)
    && forall j, k | 0 <= j < k < |at| :: at[j] < at[k]
  }

  // The actions in the given cells.
  ghost function Pick(cells: seq<Act>, at: seq<nat>): (r: seq<Act>)
    requires forall k | 0 <= k < |at| :: at[k] < |cells|
    ensures |r| == |at| && forall k | 0 <= k < |at| :: r[k] == cells[at[k]]
  {
    seq(|at|, k requires 0 <= k < |at| => cells[at[k]])
  }

  // The table of cells and the table of positions say the same: a variable
  // last set by a kept action maps to its cell, and one whose set has been
  // dropped maps to a cell that is not kept and holds no set any more.
  ghost predicate TableOk(table: map<string, nat>, slots: map<string, Slot>, kept: seq<nat>, cells: seq<Act>,
                          seen: nat) {
    && table.Keys == slots.Keys
    && forall v | v in slots ::
      table[v] < seen && match slots[v]
      case At(k) => k < |kept| && table[v] == kept[k]
      case Gone => table[v] < |cells| && table[v] !in kept && !IsSet(cells[table[v]].what)
  }

  // What Pass does with one action, as a change of the actions kept.
  ghost predicate Stepped(c: Compilers, con: Con, e: Expr, before: seq<Act>, slots: map<string, Slot>,
                          after: seq<Act>, slots': map<string, Slot>, changed: bool, cut: bool)
    requires SetShaped(e) && SlotsOk(before, slots)
  {
    var l := LookUp(e, before, slots);
    var f := FoldExpr(c, e).e;
    if IsConstant(f) then
      after == l.kept && changed && cut == CutsChain(con, f) && slots' == Forget(e, before, l.slots)
    else
      after == l.kept + [Act(con, f)] && changed == l.changed && !cut && slots' == l.slots
  }

  // The rest of a pass after one action.
  lemma SteppedPass(c: Compilers, acts: seq<Act>, before: seq<Act>, slots: map<string, Slot>,
                    after: seq<Act>, slots': map<string, Slot>, changed: bool, cut: bool)
    requires acts != [] && Roots(acts) && SlotsOk(before, slots)
    requires Stepped(c, acts[0].con, acts[0].what, before, slots, after, slots', changed, cut)
    ensures Roots(acts[1..]) && (!cut ==> SlotsOk(after, slots'))
    ensures
      var p, n := Pass(c, acts, before, slots), FoldExpr(c, acts[0].what).errors;
      p == if cut then Cleaned(after, true, n) else Plus(Pass(c, acts[1..], after, slots'), changed, n)
  {
    SlotsStay(c, acts[0], before, slots);
    FoldKeepsSet(c, acts[0].what);
  }

  // A pass after others that changed something, and reported errors.
  function Plus(r: Cleaned, changed: bool, errors: nat): Cleaned {
    Cleaned(r.acts, changed || r.changed, errors + r.errors)
  }

  // Writing a cell changes the picked actions only where the cell is picked.
  lemma PickUpdate(cells: seq<Act>, at: seq<nat>, bound: nat, p: nat, a: Act)
    requires Increasing(at, bound) && bound <= |cells| && p < |cells|
    ensures p !in at ==> Pick(cells[p := a], at) == Pick(cells, at)
    ensures forall k | 0 <= k < |at| && at[k] == p :: Pick(cells[p := a], at) == Pick(cells, at)[k := a]
  {
    var x, y := Pick(cells[p := a], at), Pick(cells, at);
    if p !in at { assert x == y; }
    forall k | 0 <= k < |at| && at[k] == p ensures x == y[k := a] {
      assert forall j | 0 <= j < |at| && j != k :: at[j] != p;
    }
  }

  lemma PickSnoc(cells: seq<Act>, at: seq<nat>, i: nat)
    requires Increasing(at, i) && i < |cells|
    ensures Increasing(at + [i], i + 1) && Pick(cells, at + [i]) == Pick(cells, at) + [cells[i]]
    ensures i !in at
  {
  }

  // What becomes of the earlier set of the same variable.
  lemma EarlierDropped(cells: seq<Act>, i: nat, kept: seq<nat>, table: map<string, nat>, slots: map<string, Slot>,
                       v: string)
    requires i < |cells| && Increasing(kept, i) && TableOk(table, slots, kept, cells, i)
    requires IsSet(cells[i].what) && SetShaped(cells[i].what) && Target(cells[i].what) == v
    requires SlotsOk(Pick(cells, kept), slots) && v in table && IsSet(cells[table[v]].what)
    ensures
      var p := table[v];
      var cells' := cells[p := cells[p].(what := TRUE)];
      var l := LookUp(cells[i].what, Pick(cells, kept), slots);
      && Pick(cells', kept) == l.kept && l.changed
      && TableOk(table[v := i], l.slots, kept + [i], cells', i + 1)
  {
    var p := table[v];
    assert slots[v].At? && kept[slots[v].k] == p;
    PickUpdate(cells, kept, i, p, cells[p].(what := TRUE));
  }

  // The set in cell i is looked up: an earlier set of its variable, if its
  // cell still holds one, becomes a constant.
  method LookUpSet(acts: array<Act>, i: nat, kept: seq<nat>, table: map<string, nat>, ghost slots: map<string, Slot>)
    returns (table': map<string, nat>, changed: bool)
    requires i < acts.Length && Increasing(kept, i)
    requires IsSet(acts[i].what) && SetShaped(acts[i].what)
    requires SlotsOk(Pick(acts[..], kept), slots) && TableOk(table, slots, kept, acts[..], i)
    modifies acts
    ensures acts[i..] == old(acts[i..])
    ensures
      var l := LookUp(old(acts[i].what), old(Pick(acts[..], kept)), slots);
      && Pick(acts[..], kept) == l.kept && changed == l.changed
      && TableOk(table', l.slots, kept + [i], acts[..], i + 1)
  {
    var v := acts[i].what.args[0].name;
    table', changed := table, false;
    if v !in table' { table' := table'[v := i]; }
    var p := table'[v];
    if p != i && IsSet(acts[p].what) {
      EarlierDropped(acts[..], i, kept, table, slots, v);
      acts[p] := acts[p].(what := TRUE);
      table' := table'[v := i];
      changed := true;
    }
  }

  lemma TableSeen(table: map<string, nat>, slots: map<string, Slot>, kept: seq<nat>, cells: seq<Act>, i: nat)
    requires TableOk(table, slots, kept, cells, i)
    ensures TableOk(table, slots, kept + [i], cells, i + 1)
  {
  }

  // Writing a kept cell does not disturb the table.
  lemma TableWrite(table: map<string, nat>, slots: map<string, Slot>, at: seq<nat>, cells: seq<Act>, seen: nat,
                   i: nat, a: Act)
    requires TableOk(table, slots, at, cells, seen) && i < |cells| && i in at
    ensures TableOk(table, slots, at, cells[i := a], seen)
  {
  }

  // A dropped cell holds no set any more, and its variable is forgotten.
  lemma TableForgets(e: Expr, before: seq<Act>, slots: map<string, Slot>, table: map<string, nat>,
                     kept: seq<nat>, i: nat, cells: seq<Act>)
    requires SetShaped(e) && SlotsOk(before, slots) && |before| == |kept|
    requires Increasing(kept, i) && i < |cells| && !IsSet(cells[i].what)
    requires TableOk(table, LookUp(e, before, slots).slots, kept + [i], cells, i + 1)
    ensures TableOk(table, Forget(e, before, LookUp(e, before, slots).slots), kept, cells, i + 1)
  {
    PickSnoc(cells, kept, i);
  }

  // One action of the chain: looked up, folded, and kept or dropped.
  method StepAction(c: Compilers, acts: array<Act>, i: nat, kept: seq<nat>, table: map<string, nat>,
                    ghost slots: map<string, Slot>)
    returns (kept': seq<nat>, table': map<string, nat>, changed: bool, cut: bool, nerr: nat,
             ghost slots': map<string, Slot>)
    requires i < acts.Length && Increasing(kept, i) && Root(acts[i].what)
    requires SlotsOk(Pick(acts[..], kept), slots) && TableOk(table, slots, kept, acts[..], i)
    modifies acts
    ensures acts[i + 1..] == old(acts[i + 1..]) && Increasing(kept', i + 1)
    ensures Stepped(c, old(acts[i].con), old(acts[i].what), old(Pick(acts[..], kept)), slots,
                    Pick(acts[..], kept'), slots', changed, cut)
    ensures nerr == FoldExpr(c, old(acts[i].what)).errors
    ensures TableOk(table', slots', kept', acts[..], i + 1)
  {
    ghost var a, before := acts[i], Pick(acts[..], kept);
    ghost var looked := LookUp(a.what, before, slots);
    kept', table', changed := kept, table, false;
    if IsSet(acts[i].what) { table', changed := LookUpSet(acts, i, kept, table, slots); }
    var f := FoldExpr(c, acts[i].what);
    PickSnoc(acts[..], kept, i);
    PickUpdate(acts[..], kept, i, i, acts[i].(what := f.e));
    if !IsSet(a.what) { TableSeen(table, slots, kept, acts[..], i); }
    TableWrite(table', looked.slots, kept + [i], acts[..], i + 1, i, acts[i].(what := f.e));
    acts[i] := acts[i].(what := f.e);
    PickSnoc(acts[..], kept, i);
    nerr, cut, slots' := f.errors, false, looked.slots;
    FoldKeepsSet(c, a.what);
    if IsConstant(f.e) {
      TableForgets(a.what, before, slots, table', kept, i, acts[..]);
      changed, cut, slots' := true, CutsChain(acts[i].con, f.e), Forget(a.what, before, looked.slots);
    } else {
      kept' := kept + [i];
    }
  }

  // One pass over the actions of a rule.
  method RunPass(c: Compilers, acts: array<Act>) returns (kept: seq<nat>, nd: bool, nerr: nat)
    requires Roots(acts[..])
    modifies acts
    ensures Increasing(kept, acts.Length)
    ensures Cleaned(Pick(acts[..], kept), nd, nerr) == old(Pass(c, acts[..], [], map[]))
  {
    hide Pass;
    kept, nd, nerr := [], false, 0;
    var table: map<string, nat> := map[];
    ghost var slots: map<string, Slot> := map[];
    ghost var all := acts[..];
    ghost var total := Pass(c, all, [], slots);
    assert acts[0..] == all;
    var i := 0;
    while i < acts.Length
      invariant 0 <= i <= acts.Length == |all|
      invariant Increasing(kept, i) && acts[i..] == all[i..] && Roots(all[i..])
      invariant TableOk(table, slots, kept, acts[..], i) && SlotsOk(Pick(acts[..], kept), slots)
      invariant total == Plus(Pass(c, all[i..], Pick(acts[..], kept), slots), nd, nerr)
    {
      ghost var before, slots0 := Pick(acts[..], kept), slots;
      assert acts[i] == all[i..][0] && all[i..][1..] == all[i + 1..];
      var changed, cut, errors;
      kept, table, changed, cut, errors, slots := StepAction(c, acts, i, kept, table, slots);
      SteppedPass(c, all[i..], before, slots0, Pick(acts[..], kept), slots, changed, cut);
      nd, nerr, i := nd || changed, nerr + errors, i + 1;
      if cut { return; }
    }
    PassEnds(c, Pick(acts[..], kept), slots);
  }

  lemma PassEnds(c: Compilers, kept: seq<Act>, slots: map<string, Slot>)
    requires SlotsOk(kept, slots)
    ensures Pass(c, [], kept, slots) == Cleaned(kept, false, 0)
  {
  }

  // Passes over the chain of a rule until one changes nothing.
  method CleanRule(c: Compilers, chain: seq<Act>) returns (kept: seq<Act>, nerr: nat)
    requires Roots(chain)
    ensures kept == CleanChain(c, chain).acts && nerr == CleanChain(c, chain).errors
  {
    kept, nerr := chain, 0;
    var nd := true;
    while nd
      invariant Roots(kept)
      invariant nd ==> CleanChain(c, chain).acts == CleanChain(c, kept).acts
                       && CleanChain(c, chain).errors == nerr + CleanChain(c, kept).errors
      invariant !nd ==> kept == CleanChain(c, chain).acts && nerr == CleanChain(c, chain).errors
      decreases if nd then Weight(kept) + 1 else 0
    {
      PassShrinks(c, kept, [], map[]);
      var acts := new Act[|kept|](i requires 0 <= i < |kept| => kept[i]);
      assert acts[..] == kept;
      var at, changed, errors := RunPass(c, acts);
      kept := Read(acts, at);
      nd, nerr := changed, nerr + errors;
    }
  }

  method Read(acts: array<Act>, at: seq<nat>) returns (r: seq<Act>)
    requires Increasing(at, acts.Length)
    ensures r == Pick(acts[..], at)
  {
    r := [];
    for k := 0 to |at|
      invariant r == Pick(acts[..], at)[..k]
    {
      r := r + [acts[at[k]]];
    }
  }
}
