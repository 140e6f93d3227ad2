// The conditions under which the cleanup of a chain (tree/const.go) preserves
// its runs, read off the chain as written, and how they survive each single
// change that the cleanup makes.
module Conditions {
  import opened Syntax
  import opened TypeCheck
  import opened Fold
  import opened Chain

  // ----- the actions that may go -----

  // A set that becomes a constant: its second argument is, or is folded to,
  // the variable set.
  predicate SetsItself(c: Compilers, e: Expr) {
    IsSet(e) && SetShaped(e) && SameSymbol(e.args[0], FoldExpr(c, e.args[1]).e)
  }

  predicate BecomesTrue(c: Compilers, e: Expr) {
    e == TRUE || SetsItself(c, e)
  }

  predicate SetLater(acts: seq<Act>, i: nat)
    requires i < |acts|
  {
    exists j | i < j < |acts| :: SameTarget(acts[i].what, acts[j].what)
  }

  // The actions that the cleanup may turn into a constant.
  predicate Goes(c: Compilers, acts: seq<Act>, i: nat)
    requires i < |acts|
  {
    BecomesTrue(c, acts[i].what) || SetLater(acts, i)
  }

  // ----- the conditions -----

  // Looking back from i over actions that may go, the first one that stays
  // always succeeds, or there is none.
  predicate ReachedSure(c: Compilers, acts: seq<Act>, i: nat)
    requires i <= |acts|
  {
    i == 0 || (if Goes(c, acts, i - 1) then ReachedSure(c, acts, i - 1) else Sure(acts[i - 1].what))
  }

  predicate RemovableAt(c: Compilers, acts: seq<Act>, i: nat)
    requires i < |acts|
  {
    i + 1 == |acts| || acts[i].con == acts[i + 1].con || ReachedSure(c, acts, i)
  }

  predicate Removable(c: Compilers, acts: seq<Act>) {
    forall i | 0 <= i < |acts| && Goes(c, acts, i) :: RemovableAt(c, acts, i)
  }

  // The connector before action i is always taken once the action before it
  // has run.
  predicate Smooth(acts: seq<Act>, i: nat)
    requires 0 < i < |acts|
  {
    acts[i].con == Comma || (acts[i].con == Then && Sure(acts[i - 1].what))
  }

  // From the set at i the chain always gets to the set at j, and nothing on
  // the way, the right side of the later set included, reads the variable.
  predicate Overwritten(acts: seq<Act>, i: nat, j: nat)
    requires i < j < |acts| && IsSet(acts[i].what) && SetShaped(acts[i].what)
  {
    && Quiet(acts[i].what.args[1])
    && forall m | i < m <= j :: Target(acts[i].what) !in ActReads(acts[m].what) && Smooth(acts, m)
  }

  predicate OverwritesOk(acts: seq<Act>) {
    forall i, j | 0 <= i < j < |acts| && SameTarget(acts[i].what, acts[j].what) :: Overwritten(acts, i, j)
  }

  predicate ChainOk(c: Compilers, acts: seq<Act>, g: Scope, levels: seq<LevelDecl>) {
    && ScopeOk(g) && Removable(c, acts) && OverwritesOk(acts)
    && forall a | a in acts :: ActReady(a.what, g, levels)
  }

  // ----- fewer actions may go after a change -----

  lemma GoesIsSure(c: Compilers, acts: seq<Act>, i: nat)
    requires i < |acts| && Goes(c, acts, i)
    ensures Sure(acts[i].what)
  {
  }

  lemma ReachedSureEnds(c: Compilers, acts: seq<Act>, i: nat)
    requires i <= |acts| && ReachedSure(c, acts, i)
    ensures EndsSure(acts[..i], true)
  {
    if i > 0 && Goes(c, acts, i - 1) { GoesIsSure(c, acts, i - 1); }
  }

  // b has been made from a: where something may still go, it might before.
  predicate GoesLess(c: Compilers, a: seq<Act>, b: seq<Act>, k: nat)
    requires k < |a| && k < |b|
  {
    (Goes(c, b, k) ==> Goes(c, a, k)) && (Sure(a[k].what) ==> Sure(b[k].what))
  }

  lemma {:induction false} ReachedSureStays(c: Compilers, a: seq<Act>, b: seq<Act>, i: nat)
    requires i <= |a| && i <= |b| && forall k | 0 <= k < i :: GoesLess(c, a, b, k)
    requires ReachedSure(c, a, i)
    ensures ReachedSure(c, b, i)
  {
    if i > 0 {
      assert GoesLess(c, a, b, i - 1);
      if Goes(c, a, i - 1) {
        GoesIsSure(c, a, i - 1);
        ReachedSureStays(c, a, b, i - 1);
      }
    }
  }

  // ----- one action is replaced: folded, or overwritten -----

  // What the conditions look at in an action.
  predicate Milder(e': Expr, e: Expr) {
    && (Sure(e) ==> Sure(e')) && ActReads(e') <= ActReads(e)
    && (IsSet(e') ==> SameTarget(e', e) && (Quiet(e.args[1]) ==> Quiet(e'.args[1])))
  }

  predicate Replaces(c: Compilers, acts: seq<Act>, i: nat, a: Act) {
    && i < |acts| && a.con == acts[i].con && Milder(a.what, acts[i].what)
    && (BecomesTrue(c, a.what) ==> Goes(c, acts, i))
  }

  lemma ReplaceGoes(c: Compilers, acts: seq<Act>, i: nat, a: Act, k: nat)
    requires Replaces(c, acts, i, a) && k < |acts|
    ensures GoesLess(c, acts, acts[i := a], k)
  {
    var acts' := acts[i := a];
    if SetLater(acts', k) {
      var j :| k < j < |acts'| && SameTarget(acts'[k].what, acts'[j].what);
      assert SameTarget(acts[k].what, acts[j].what);
    }
  }

  lemma ReplaceRemovable(c: Compilers, acts: seq<Act>, i: nat, a: Act)
    requires Removable(c, acts) && Replaces(c, acts, i, a)
    ensures Removable(c, acts[i := a])
  {
    var acts' := acts[i := a];
    forall k | 0 <= k < |acts'| && Goes(c, acts', k) ensures RemovableAt(c, acts', k) {
      forall m | 0 <= m <= k ensures GoesLess(c, acts, acts', m) { ReplaceGoes(c, acts, i, a, m); }
      assert RemovableAt(c, acts, k);
      if ReachedSure(c, acts, k) { ReachedSureStays(c, acts, acts', k); }
    }
  }

  lemma ReplaceSmooth(c: Compilers, acts: seq<Act>, i: nat, a: Act, m: nat)
    requires Replaces(c, acts, i, a) && 0 < m < |acts| && Smooth(acts, m)
    ensures Smooth(acts[i := a], m)
  {
  }

  lemma ReplaceOverwrites(c: Compilers, acts: seq<Act>, i: nat, a: Act)
    requires OverwritesOk(acts) && Replaces(c, acts, i, a)
    ensures OverwritesOk(acts[i := a])
  {
    var acts' := acts[i := a];
    forall p, q | 0 <= p < q < |acts'| && SameTarget(acts'[p].what, acts'[q].what)
      ensures Overwritten(acts', p, q)
    {
      assert SameTarget(acts[p].what, acts[q].what);
      assert Overwritten(acts, p, q);
      forall m | p < m <= q ensures Target(acts'[p].what) !in ActReads(acts'[m].what) && Smooth(acts', m) {
        ReplaceSmooth(c, acts, i, a, m);
      }
    }
  }

  lemma ReplaceKeepsOk(c: Compilers, acts: seq<Act>, i: nat, a: Act, g: Scope, levels: seq<LevelDecl>)
    requires ChainOk(c, acts, g, levels) && Replaces(c, acts, i, a) && ActReady(a.what, g, levels)
    ensures ChainOk(c, acts[i := a], g, levels)
  {
    ReplaceRemovable(c, acts, i, a);
    ReplaceOverwrites(c, acts, i, a);
  }

  // ----- a constant is removed -----

  lemma RemoveGoes(c: Compilers, acts: seq<Act>, p: nat, k: nat)
    requires p < |acts| && acts[p].what == TRUE && k < |acts| - 1
    ensures Goes(c, Without(acts, p), k) <==> Goes(c, acts, Skip(k, p))
  {
    var less := Without(acts, p);
    if SetLater(less, k) {
      var j :| k < j < |less| && SameTarget(less[k].what, less[j].what);
      assert SameTarget(acts[Skip(k, p)].what, acts[Skip(j, p)].what);
    }
    if SetLater(acts, Skip(k, p)) {
      var j :| Skip(k, p) < j < |acts| && SameTarget(acts[Skip(k, p)].what, acts[j].what);
      assert SameTarget(less[k].what, less[if j < p then j else j - 1].what);
    }
  }

  lemma {:induction false} RemoveReached(c: Compilers, acts: seq<Act>, p: nat, k: nat)
    requires p < |acts| && acts[p].what == TRUE && k < |acts| - 1
    requires ReachedSure(c, acts, Skip(k, p))
    ensures ReachedSure(c, Without(acts, p), k)
    decreases k
  {
    if k > 0 {
      RemoveGoes(c, acts, p, k - 1);
      if Goes(c, acts, Skip(k - 1, p)) {
        assert k == p ==> ReachedSure(c, acts, p) && ReachedSure(c, acts, p - 1);
        RemoveReached(c, acts, p, k - 1);
      } else if k == p {
        assert ReachedSure(c, acts, p);
      }
    }
  }

  lemma RemoveKeepsRemovable(c: Compilers, acts: seq<Act>, p: nat)
    requires Removable(c, acts) && p < |acts| && acts[p].what == TRUE
    ensures Removable(c, Without(acts, p))
  {
    var less := Without(acts, p);
    forall i | 0 <= i < |less| && Goes(c, less, i) ensures RemovableAt(c, less, i) {
      var k := Skip(i, p);
      RemoveGoes(c, acts, p, i);
      assert RemovableAt(c, acts, k) && RemovableAt(c, acts, p);
      if ReachedSure(c, acts, k) {
        RemoveReached(c, acts, p, i);
      } else if k + 1 == p {
        assert !ReachedSure(c, acts, p);
      }
    }
  }

  lemma RemoveKeepsSmooth(c: Compilers, acts: seq<Act>, p: nat, i: nat, m: nat)
    requires Removable(c, acts) && p < |acts| && acts[p].what == TRUE
    requires i < m < |acts| - 1
    requires forall k | Skip(i, p) < k <= Skip(m, p) :: Smooth(acts, k)
    ensures Smooth(Without(acts, p), m)
  {
    var k := Skip(m, p);
    assert Smooth(acts, k);
    if k == p + 1 {
      assert Skip(i, p) < p;
      assert RemovableAt(c, acts, p) && Smooth(acts, p);
      if acts[k].con == Then && acts[p].con != Then { ReachedSureEnds(c, acts, p); }
    }
  }

  lemma RemoveKeepsOk(c: Compilers, acts: seq<Act>, p: nat, g: Scope, levels: seq<LevelDecl>)
    requires ChainOk(c, acts, g, levels) && p < |acts| && acts[p].what == TRUE
    ensures ChainOk(c, Without(acts, p), g, levels)
  {
    var less := Without(acts, p);
    RemoveKeepsRemovable(c, acts, p);
    forall i, j | 0 <= i < j < |less| && SameTarget(less[i].what, less[j].what)
      ensures Overwritten(less, i, j)
    {
      assert Overwritten(acts, Skip(i, p), Skip(j, p));
      forall m | i < m <= j ensures Target(less[i].what) !in ActReads(less[m].what) && Smooth(less, m) {
        assert less[m] == acts[Skip(m, p)];
        RemoveKeepsSmooth(c, acts, p, i, m);
      }
    }
  }

  // ----- the rest of the chain is cut off -----

  lemma CutGoes(c: Compilers, acts: seq<Act>, n: nat, k: nat)
    requires n <= |acts| && k < n
    ensures GoesLess(c, acts, acts[..n], k)
  {
    if SetLater(acts[..n], k) {
      var j :| k < j < n && SameTarget(acts[..n][k].what, acts[..n][j].what);
      assert SameTarget(acts[k].what, acts[j].what);
    }
  }

  lemma CutKeepsOk(c: Compilers, acts: seq<Act>, n: nat, g: Scope, levels: seq<LevelDecl>)
    requires ChainOk(c, acts, g, levels) && n <= |acts|
    ensures ChainOk(c, acts[..n], g, levels)
  {
    var less := acts[..n];
    forall i | 0 <= i < |less| && Goes(c, less, i) ensures RemovableAt(c, less, i) {
      forall k | 0 <= k <= i ensures GoesLess(c, acts, less, k) { CutGoes(c, acts, n, k); }
      assert RemovableAt(c, acts, i);
      if ReachedSure(c, acts, i) { ReachedSureStays(c, acts, less, i); }
    }
    forall i, j | 0 <= i < j < |less| && SameTarget(less[i].what, less[j].what)
      ensures Overwritten(less, i, j)
    {
      assert Overwritten(acts, i, j);
      forall m | i < m <= j ensures Smooth(less, m) { assert Smooth(acts, m); }
    }
  }
}
