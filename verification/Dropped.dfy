// A rule whose chain the cleanup empties is dropped (tree/const.go), and with
// it the user signals that its trigger would have taken.  When that goes
// unnoticed, exactly.
module Dropped {
  import opened Types
  import opened Syntax
  import opened Semantics
  import opened TypeCheck
  import opened Soundness
  import opened Fold
  import opened Chain
  import opened ChainFold
  import opened Conditions
  import opened Overwrite
  import opened Emptied
  import opened CleanSound
  import opened ProgFold
  import opened Scripted
  import opened Asking

  // Without the rule, from any state and in any world, nothing is missed.
  ghost predicate DropUnseen(r: Rule, g: Scope, levels: seq<LevelDecl>) {
    forall w: World, st, sig | w.levels == levels && StoreTyped(st, g) ::
      Better(RunRule(w, r, st, sig), RunRules(w, [], st, sig))
  }

  lemma DropFine(c: Compilers, w: World, r: Rule, st: St, sig: Sig, g: Scope)
    requires ScopeOk(g) && StoreTyped(st, g) && Roots(r.acts) && ChainOk(c, r.acts, g, w.levels)
    requires CleanChain(c, r.acts).errors == 0 && Empties(c, r.acts)
    ensures
      var v := Eval(w, r.expr, st, sig);
      v.Ok? ==> Better(RunRule(w, r, st, sig), Done(st, v.sig))
  {
    var v := Eval(w, r.expr, st, sig);
    if v.Ok? {
      EmptiedExact(c, r.acts, g, w.levels);
      CleanChainSound(c, w, r.acts, st, v.sig, g);
    }
  }

  // An emptied rule may be dropped exactly if its trigger takes no signal, for
  // triggers that get to their signal calls in some scene.
  lemma DropExact(c: Compilers, r: Rule, g: Scope, levels: seq<LevelDecl>, scene: Scene)
    requires ScopeOk(g) && RuleSafe(r, g) && Roots(r.acts) && ChainOk(c, r.acts, g, levels)
    requires CURR_LEVEL in g ==> g[CURR_LEVEL] == TVInt
    requires CleanChain(c, r.acts).errors == 0 && Empties(c, r.acts)
    requires Asks(r.expr, scene) && Total(r.expr) && TotalActs(r.acts)
    ensures FoldRule(c, r).rules == []
    ensures DropUnseen(r, g, levels) <==> Quiet(r.expr)
  {
    EmptiedExact(c, r.acts, g, levels);
    if Quiet(r.expr) {
      forall w: World, st, sig | w.levels == levels && StoreTyped(st, g)
        ensures Better(RunRule(w, r, st, sig), RunRules(w, [], st, sig))
      {
        DropFine(c, w, r, st, sig, g);
        QuietNoEffect(w, r.expr, st, sig);
      }
    } else {
      DropSeen(c, r, g, levels, scene);
    }
  }

  lemma DropSeen(c: Compilers, r: Rule, g: Scope, levels: seq<LevelDecl>, scene: Scene)
    requires ScopeOk(g) && RuleSafe(r, g) && Roots(r.acts) && ChainOk(c, r.acts, g, levels)
    requires CURR_LEVEL in g ==> g[CURR_LEVEL] == TVInt
    requires CleanChain(c, r.acts).errors == 0 && Empties(c, r.acts)
    requires Asks(r.expr, scene) && Total(r.expr) && TotalActs(r.acts) && !Quiet(r.expr)
    ensures !DropUnseen(r, g, levels)
  {
    var w, st := Script(levels, scene, [], 0), Filled(g, USR1);
    TotalOk(w, scene, r.expr, st, BOTH, g);
    NotQuietTakes(w, scene, r.expr, g);
    DropFine(c, w, r, st, BOTH, g);
    var v := Eval(w, r.expr, st, BOTH);
    TotalChainOk(w, scene, r.acts, true, st, v.sig, g);
    assert RunRule(w, r, st, BOTH) == Done(st, v.sig);
    assert !Better(RunRule(w, r, st, BOTH), RunRules(w, [], st, BOTH));
  }
}
