// What one pass of the cleanup (tree/const.go) does to a chain in which one
// variable is set twice: the earlier set becomes a constant, whatever the two
// sets and the other actions are.
module Replacing {
  import opened Syntax
  import opened Fold
  import opened Chain
  import opened ChainFold
  import opened CleanSound

  function FoldEach(c: Compilers, acts: seq<Act>): (r: seq<Act>)
    ensures |r| == |acts|
    ensures forall k | 0 <= k < |acts| :: r[k] == Act(acts[k].con, FoldExpr(c, acts[k].what).e)
  {
    if acts == [] then [] else [Act(acts[0].con, FoldExpr(c, acts[0].what).e)] + FoldEach(c, acts[1..])
  }

  // No action becomes a constant, and no variable is set that has been.
  predicate Passes(c: Compilers, acts: seq<Act>, slots: map<string, Slot>) {
    && Roots(acts)
    && (forall k | 0 <= k < |acts| :: !IsConstant(FoldExpr(c, acts[k].what).e))
    && (forall k | 0 <= k < |acts| && IsSet(acts[k].what) :: SetShaped(acts[k].what) && Target(acts[k].what) !in slots)
    && forall p, q | 0 <= p < q < |acts| :: !SameTarget(acts[p].what, acts[q].what)
  }

  // The table after some actions have been kept.
  function SlotsAfter(acts: seq<Act>, n: nat, slots: map<string, Slot>): map<string, Slot>
    requires Roots(acts)
  {
    if acts == [] then slots
    else
      var e := acts[0].what;
      SlotsAfter(acts[1..], n + 1, if IsSet(e) then slots[Target(e) := At(n)] else slots)
  }

  lemma {:induction false} SlotsAfterKeys(acts: seq<Act>, n: nat, slots: map<string, Slot>, v: string)
    requires Roots(acts) && v !in slots
    requires forall k | 0 <= k < |acts| && IsSet(acts[k].what) :: Target(acts[k].what) != v
    ensures v !in SlotsAfter(acts, n, slots)
    decreases acts
  {
    if acts != [] {
      var e := acts[0].what;
      assert forall k | 0 <= k < |acts| - 1 :: acts[1..][k] == acts[k + 1];
      SlotsAfterKeys(acts[1..], n + 1, if IsSet(e) then slots[Target(e) := At(n)] else slots, v);
    }
  }

  lemma {:induction false} SlotsAfterKeep(acts: seq<Act>, n: nat, slots: map<string, Slot>, v: string)
    requires Roots(acts) && v in slots && forall k | 0 <= k < |acts| && IsSet(acts[k].what) :: Target(acts[k].what) != v
    ensures v in SlotsAfter(acts, n, slots) && SlotsAfter(acts, n, slots)[v] == slots[v]
    decreases acts
  {
    if acts != [] {
      var e := acts[0].what;
      assert forall k | 0 <= k < |acts| - 1 :: acts[1..][k] == acts[k + 1];
      SlotsAfterKeep(acts[1..], n + 1, if IsSet(e) then slots[Target(e) := At(n)] else slots, v);
    }
  }

  // A set kept is in the table at its place.
  lemma {:induction false} SlotsAfterAt(c: Compilers, acts: seq<Act>, n: nat, slots: map<string, Slot>, i: nat)
    requires Passes(c, acts, slots) && i < |acts| && IsSet(acts[i].what)
    ensures
      var v, s := Target(acts[i].what), SlotsAfter(acts, n, slots);
      v in s && s[v] == At(n + i)
    decreases acts
  {
    hide FoldExpr;
    var e, rest := acts[0].what, acts[1..];
    var slots' := if IsSet(e) then slots[Target(e) := At(n)] else slots;
    assert forall k | 0 <= k < |rest| :: rest[k] == acts[k + 1];
    if i == 0 {
      forall k | 0 <= k < |rest| && IsSet(rest[k].what) ensures Target(rest[k].what) != Target(e) {
        assert !SameTarget(acts[0].what, acts[k + 1].what);
      }
      SlotsAfterKeep(rest, n + 1, slots', Target(e));
    } else {
      PassesRest(c, acts, n, slots);
      SlotsAfterAt(c, rest, n + 1, slots', i - 1);
    }
  }

  lemma PassesRest(c: Compilers, acts: seq<Act>, n: nat, slots: map<string, Slot>)
    requires Passes(c, acts, slots) && acts != []
    ensures
      var e := acts[0].what;
      Passes(c, acts[1..], if IsSet(e) then slots[Target(e) := At(n)] else slots)
  {
    var rest := acts[1..];
    assert forall k | 0 <= k < |rest| :: rest[k] == acts[k + 1];
    assert forall k | 0 < k < |acts| :: !SameTarget(acts[0].what, acts[k].what);
  }

  // A pass over actions that stay.
  lemma {:induction false} PassOver(
      c: Compilers, before: seq<Act>, rest: seq<Act>, kept: seq<Act>, slots: map<string, Slot>)
    requires Passes(c, before, slots) && Roots(rest) && SlotsOk(kept, slots)
    ensures Roots(before + rest) && SlotsOk(kept + FoldEach(c, before), SlotsAfter(before, |kept|, slots))
    ensures
      var p := Pass(c, before + rest, kept, slots);
      var q := Pass(c, rest, kept + FoldEach(c, before), SlotsAfter(before, |kept|, slots));
      p.acts == q.acts && p.changed == q.changed
    decreases before
  {
    if before == [] {
      assert before + rest == rest && kept + FoldEach(c, before) == kept;
    } else {
      var a := before[0];
      var f := Act(a.con, FoldExpr(c, a.what).e);
      assert (before + rest)[0] == a && (before + rest)[1..] == before[1..] + rest;
      assert kept + [f] + FoldEach(c, before[1..]) == kept + FoldEach(c, before);
      hide FoldExpr;
      SlotsStay(c, a, kept, slots);
      PassesRest(c, before, |kept|, slots);
      PassOver(c, before[1..], rest, kept + [f], LookUp(a.what, kept, slots).slots);
    }
  }

  // One variable is set twice, at i and j, and no other; only the later set
  // may become a constant.
  predicate OneTwice(c: Compilers, acts: seq<Act>, i: nat, j: nat) {
    && Roots(acts) && i < j < |acts| && SameTarget(acts[i].what, acts[j].what)
    && (forall p, q | 0 <= p < q < |acts| && SameTarget(acts[p].what, acts[q].what) :: p == i && q == j)
    && forall k | 0 <= k < |acts| && k != j :: !IsConstant(FoldExpr(c, acts[k].what).e)
  }

  lemma OneTwiceParts(c: Compilers, acts: seq<Act>, i: nat, j: nat, slots: map<string, Slot>)
    requires OneTwice(c, acts, i, j)
    ensures i < j < |acts| && Passes(c, acts[..j], map[]) && Roots(acts[j..]) && Roots(acts[j + 1..])
    ensures Roots(acts) && IsSet(acts[..j][i].what) && SetShaped(acts[..j][i].what)
    ensures IsSet(acts[j].what) && SetShaped(acts[j].what)
    ensures Target(acts[..j][i].what) == Target(acts[j].what)
    ensures (forall k | j < k < |acts| && IsSet(acts[k].what) :: Target(acts[k].what) !in slots)
        ==> Passes(c, acts[j + 1..], slots)
  {
    var rest := acts[j + 1..];
    assert forall k | 0 <= k < |rest| :: rest[k] == acts[j + 1 + k];
    forall p, q | 0 <= p < q < |rest| ensures !SameTarget(rest[p].what, rest[q].what) {
      assert !SameTarget(acts[j + 1 + p].what, acts[j + 1 + q].what);
    }
  }

  // The table when the later set has been seen.
  lemma RestUnset(c: Compilers, acts: seq<Act>, i: nat, j: nat, k: nat)
    requires OneTwice(c, acts, i, j) && j < k < |acts| && IsSet(acts[k].what)
    ensures Target(acts[k].what) != Target(acts[j].what)
    ensures Target(acts[k].what) !in SlotsAfter(acts[..j], 0, map[])
  {
    var none: map<string, Slot> := map[];
    assert !SameTarget(acts[j].what, acts[k].what);
    forall p | 0 <= p < j && IsSet(acts[..j][p].what) ensures Target(acts[..j][p].what) != Target(acts[k].what) {
      assert !SameTarget(acts[p].what, acts[k].what);
    }
    SlotsAfterKeys(acts[..j], 0, none, Target(acts[k].what));
  }

  // The chain with the earlier set replaced, and all else folded.
  function Rewritten(c: Compilers, acts: seq<Act>, i: nat): (r: seq<Act>)
    requires i < |acts|
    ensures |r| == |acts|
  {
    FoldEach(c, acts)[i := Act(acts[i].con, TRUE)]
  }

  // The later set finds the earlier one.
  lemma LookUpLater(e: Expr, kept: seq<Act>, i: nat, slots: map<string, Slot>)
    requires IsSet(e) && SetShaped(e) && SlotsOk(kept, slots)
    requires Target(e) in slots && slots[Target(e)] == At(i) && i < |kept|
    ensures
      var kept' := kept[i := Act(kept[i].con, TRUE)];
      && LookUp(e, kept, slots) == Looked(kept', slots[Target(e) := At(|kept|)], true)
      && Forget(e, kept, slots[Target(e) := At(|kept|)]) == slots[Target(e) := Gone]
  {
  }

  lemma PassAtLater(c: Compilers, a: Act, rest: seq<Act>, kept: seq<Act>, i: nat, slots: map<string, Slot>)
    requires Root(a.what) && IsSet(a.what) && Roots(rest) && SlotsOk(kept, slots) && i < |kept|
    requires Target(a.what) in slots && slots[Target(a.what)] == At(i) && !IsConstant(FoldExpr(c, a.what).e)
    ensures
      var f := FoldExpr(c, a.what).e;
      var kept' := kept[i := Act(kept[i].con, TRUE)] + [Act(a.con, f)];
      var slots', p := slots[Target(a.what) := At(|kept|)], Pass(c, [a] + rest, kept, slots);
      SlotsOk(kept', slots') && p.changed && p.acts == Pass(c, rest, kept', slots').acts
  {
    LookUpLater(a.what, kept, i, slots);
    SlotsStay(c, a, kept, slots);
    assert ([a] + rest)[0] == a && ([a] + rest)[1..] == rest;
  }

  lemma PassAtConstant(c: Compilers, a: Act, rest: seq<Act>, kept: seq<Act>, i: nat, slots: map<string, Slot>)
    requires Root(a.what) && IsSet(a.what) && Roots(rest) && SlotsOk(kept, slots) && i < |kept|
    requires Target(a.what) in slots && slots[Target(a.what)] == At(i) && IsConstant(FoldExpr(c, a.what).e)
    ensures
      var kept' := kept[i := Act(kept[i].con, TRUE)];
      var slots', p := slots[Target(a.what) := Gone], Pass(c, [a] + rest, kept, slots);
      && SlotsOk(kept', slots') && p.changed
      && p.acts == if a.con == NThen then kept' else Pass(c, rest, kept', slots').acts
  {
    LookUpLater(a.what, kept, i, slots);
    SlotsStay(c, a, kept, slots);
    FoldKeepsSet(c, a.what);
    assert FoldExpr(c, a.what).e == TRUE;
    assert ([a] + rest)[0] == a && ([a] + rest)[1..] == rest;
  }

  // The part of a pass up to the later set.
  lemma PassEarlier(c: Compilers, acts: seq<Act>, i: nat, j: nat, kept: seq<Act>, slots: map<string, Slot>)
    requires OneTwice(c, acts, i, j)
    requires kept == FoldEach(c, acts[..j]) && slots == SlotsAfter(acts[..j], 0, map[])
    ensures i < j < |acts| && |kept| == j && Roots(acts) && Roots(acts[j..]) && SlotsOk(kept, slots)
    ensures SetShaped(acts[j].what) && IsSet(acts[j].what)
    ensures Target(acts[j].what) in slots && slots[Target(acts[j].what)] == At(i)
    ensures
      var p, q := Pass(c, acts, [], map[]), Pass(c, acts[j..], kept, slots);
      p.acts == q.acts && p.changed == q.changed
  {
    hide FoldExpr, Pass, SlotsAfter, OneTwice, Passes, Root, SetShaped, Target, IsSet;
    var none: map<string, Slot> := map[];
    OneTwiceParts(c, acts, i, j, none);
    assert acts == acts[..j] + acts[j..];
    assert [] + kept == kept;
    PassOver(c, acts[..j], acts[j..], [], none);
    SlotsAfterAt(c, acts[..j], 0, none, i);
  }

  lemma PassTwice(c: Compilers, acts: seq<Act>, i: nat, j: nat)
    requires OneTwice(c, acts, i, j)
    ensures
      var r, p := Rewritten(c, acts, i), Pass(c, acts, [], map[]);
      p.changed && p.acts == if IsConstant(r[j].what) then Dropped(r, j) else r
  {
    var kept, slots := FoldEach(c, acts[..j]), SlotsAfter(acts[..j], 0, map[]);
    hide FoldExpr, Pass, SlotsAfter, Rewritten, FoldEach, Dropped, Root, SlotsOk;
    PassEarlier(c, acts, i, j, kept, slots);
    PassLater(c, acts, i, j, kept, slots);
    RewrittenIs(c, acts, i, j);
  }

  // The part of a pass from the later set on.
  lemma PassLater(c: Compilers, acts: seq<Act>, i: nat, j: nat, kept: seq<Act>, slots: map<string, Slot>)
    requires OneTwice(c, acts, i, j) && |kept| == j && slots == SlotsAfter(acts[..j], 0, map[])
    requires SlotsOk(kept, slots) && Target(acts[j].what) in slots && slots[Target(acts[j].what)] == At(i)
    ensures Roots(acts[j..])
    ensures
      var f := Act(acts[j].con, FoldExpr(c, acts[j].what).e);
      var first, last := kept[i := Act(kept[i].con, TRUE)], FoldEach(c, acts[j + 1..]);
      var p := Pass(c, acts[j..], kept, slots);
      p.changed && p.acts ==
        if !IsConstant(f.what) then first + [f] + last else if f.con == NThen then first else first + last
  {
    hide FoldExpr;
    var a, rest := acts[j], acts[j + 1..];
    var f := FoldExpr(c, a.what).e;
    var slots' := slots[Target(a.what) := if IsConstant(f) then Gone else At(|kept|)];
    assert acts[j..] == [a] + rest && rest + [] == rest;
    if IsConstant(f) {
      PassAtConstant(c, a, rest, kept, i, slots);
    } else {
      PassAtLater(c, a, rest, kept, i, slots);
    }
    forall k | j < k < |acts| && IsSet(acts[k].what) ensures Target(acts[k].what) !in slots' {
      RestUnset(c, acts, i, j, k);
    }
    OneTwiceParts(c, acts, i, j, slots');
    var first := kept[i := Act(kept[i].con, TRUE)];
    PassOver(c, rest, [], if IsConstant(f) then first else first + [Act(a.con, f)], slots');
  }

  lemma RewrittenIs(c: Compilers, acts: seq<Act>, i: nat, j: nat)
    requires i < j < |acts|
    ensures
      var r, kept := Rewritten(c, acts, i), FoldEach(c, acts[..j]);
      var first := kept[i := Act(kept[i].con, TRUE)];
      && r[j] == Act(acts[j].con, FoldExpr(c, acts[j].what).e) && r[..j] == first
      && r == first + [r[j]] + FoldEach(c, acts[j + 1..])
      && Dropped(r, j) == if acts[j].con == NThen then first else first + FoldEach(c, acts[j + 1..])
  {
    var r, kept := Rewritten(c, acts, i), FoldEach(c, acts[..j]);
    assert forall k | 0 <= k < j :: acts[..j][k] == acts[k];
    assert r[..j] == kept[i := Act(kept[i].con, TRUE)];
    assert r[j + 1..] == FoldEach(c, acts[j + 1..]);
    assert r == r[..j] + [r[j]] + r[j + 1..];
  }
}
