// Folding a whole program (Prog.Fold, tree/const.go) preserves its runs over
// any stream of messages, polls and signals.
module ProgFold {
  import opened Types
  import opened Syntax
  import opened Semantics
  import opened TypeCheck
  import opened Soundness
  import opened Fold
  import opened Chain
  import opened ChainFold
  import opened Conditions
  import opened Overwrite
  import opened Emptied
  import opened CleanSound

  // Only a constant that is not true makes a trigger dead.
  predicate IsTrue(e: Expr) {
    e.Const? ==> BoolField(e.v)
  }

  datatype FoldedRules = FoldedRules(errors: nat, rules: seq<Rule>)

  predicate RulesRooted(rs: seq<Rule>) {
    forall r | r in rs :: Roots(r.acts)
  }

  // A rule that can never be triggered is dropped, and so is a rule whose
  // chain has become empty.
  function FoldRule(c: Compilers, r: Rule): FoldedRules
    requires Roots(r.acts)
  {
    var t := FoldExpr(c, r.expr);
    if t.errors == 0 && !IsTrue(t.e) then FoldedRules(0, [])
    else
      var k := CleanChain(c, r.acts);
      FoldedRules(t.errors + k.errors, if k.acts == [] then [] else [Rule(t.e, k.acts)])
  }

  function FoldRules(c: Compilers, rs: seq<Rule>): FoldedRules
    requires RulesRooted(rs)
    decreases rs
  {
    if rs == [] then FoldedRules(0, [])
    else
      var h, t := FoldRule(c, rs[0]), FoldRules(c, rs[1..]);
      FoldedRules(h.errors + t.errors, h.rules + t.rules)
  }

  predicate SectionsRooted(ss: seq<Section>) {
    forall s | s in ss :: RulesRooted(s.rules)
  }

  datatype FoldedSections = FoldedSections(errors: nat, sections: seq<Section>)

  function FoldSections(c: Compilers, ss: seq<Section>): FoldedSections
    requires SectionsRooted(ss)
    decreases ss
  {
    if ss == [] then FoldedSections(0, [])
    else
      assert ss[0] in ss;
      var h, t := FoldRules(c, ss[0].rules), FoldSections(c, ss[1..]);
      FoldedSections(h.errors + t.errors, [Section(ss[0].id, h.rules)] + t.sections)
  }

  // ----- what the folder needs to be right about a program -----

  predicate RuleFoldable(c: Compilers, r: Rule, g: Scope, levels: seq<LevelDecl>) {
    && RuleSafe(r, g) && Ready(r.expr, g, levels)
    && Roots(r.acts) && ChainOk(c, r.acts, g, levels)
    && (Empties(c, r.acts) ==> Quiet(r.expr))
  }

  predicate RulesFoldable(c: Compilers, rs: seq<Rule>, g: Scope, levels: seq<LevelDecl>) {
    forall r | r in rs :: RuleFoldable(c, r, g, levels)
  }

  predicate ProgFoldable(c: Compilers, ss: seq<Section>, g: Scope, levels: seq<LevelDecl>) {
    && ScopeOk(g) && (TIME in g ==> g[TIME] == TVInt) && (UPTIME in g ==> g[UPTIME] == TVInt)
    && forall s | s in ss :: RulesFoldable(c, s.rules, g, levels)
  }

  lemma RuleFoldSound(c: Compilers, w: World, r: Rule, st: St, sig: Sig, g: Scope)
    requires ScopeOk(g) && RuleFoldable(c, r, g, w.levels) && StoreTyped(st, g)
    requires FoldRule(c, r).errors == 0
    ensures Better(RunRule(w, r, st, sig), RunRules(w, FoldRule(c, r).rules, st, sig))
  {
    FoldSound(c, w, r.expr, st, sig, g);
    var t := FoldExpr(c, r.expr).e;
    var v := Eval(w, r.expr, st, sig);
    if v.Ok? && IsTrue(t) {
      CleanChainSound(c, w, r.acts, st, v.sig, g);
      var acts := CleanChain(c, r.acts).acts;
      EmptiedExact(c, r.acts, g, w.levels);
      if acts == [] {
        QuietNoEffect(w, r.expr, st, sig);
      } else {
        var r' := Rule(t, acts);
        assert [r'][1..] == [];
        assert RunRules(w, [r'], st, sig) == RunRule(w, r', st, sig);
      }
    }
  }

  lemma {:induction false} RunRulesConcat(w: World, a: seq<Rule>, b: seq<Rule>, st: St, sig: Sig)
    ensures RunRules(w, a + b, st, sig) ==
      var r := RunRules(w, a, st, sig);
      if r.Done? then RunRules(w, b, r.st, r.sig) else r
    decreases a
  {
    if a == [] {
      assert a + b == b;
    } else {
      assert (a + b)[0] == a[0] && (a + b)[1..] == a[1..] + b;
      var r := RunRule(w, a[0], st, sig);
      if r.Done? { RunRulesConcat(w, a[1..], b, r.st, r.sig); }
    }
  }

  lemma {:induction false} RulesFoldSound(c: Compilers, w: World, rs: seq<Rule>, st: St, sig: Sig, g: Scope)
    requires ScopeOk(g) && RulesRooted(rs) && RulesFoldable(c, rs, g, w.levels) && StoreTyped(st, g)
    requires FoldRules(c, rs).errors == 0
    ensures Better(RunRules(w, rs, st, sig), RunRules(w, FoldRules(c, rs).rules, st, sig))
    decreases rs
  {
    if rs != [] {
      var r := rs[0];
      assert r in rs;
      RuleFoldSound(c, w, r, st, sig, g);
      RuleSound(w, r, st, sig, g);
      RunRulesConcat(w, FoldRule(c, r).rules, FoldRules(c, rs[1..]).rules, st, sig);
      var d := RunRule(w, r, st, sig);
      if d.Done? { RulesFoldSound(c, w, rs[1..], d.st, d.sig, g); }
    }
  }

  lemma {:induction false} SectionsFoldSound(
      c: Compilers, w: World, ss: seq<Section>, kind: string, st: St, sig: Sig, g: Scope)
    requires SectionsRooted(ss) && ProgFoldable(c, ss, g, w.levels) && StoreTyped(st, g)
    requires FoldSections(c, ss).errors == 0
    ensures Better(RunSections(w, ss, kind, st, sig), RunSections(w, FoldSections(c, ss).sections, kind, st, sig))
    decreases ss
  {
    if ss != [] {
      assert ss[0] in ss;
      var s' := Section(ss[0].id, FoldRules(c, ss[0].rules).rules);
      var ss' := FoldSections(c, ss).sections;
      assert ss'[0] == s' && ss'[1..] == FoldSections(c, ss[1..]).sections;
      if ss[0].id == kind {
        RulesFoldSound(c, w, ss[0].rules, st, sig, g);
      } else {
        SectionsFoldSound(c, w, ss[1..], kind, st, sig, g);
      }
    }
  }

  lemma FoldableIsSafe(c: Compilers, ss: seq<Section>, g: Scope, levels: seq<LevelDecl>)
    requires ProgFoldable(c, ss, g, levels)
    ensures ProgSafe(ss, g)
  {
  }

  // Whole-program folding: over any stream of inputs, whatever the world
  // answers, a run that does not fault ends in the same store, level and
  // signal counters, with the same visible events in the same order, when
  // the folded program is run instead.
  lemma {:induction false} ProgramFoldSound(
      c: Compilers, p: Prog, inputs: seq<Input>, st: St, sig: Sig, g: Scope, levels: seq<LevelDecl>)
    requires SectionsRooted(p.sections) && ProgFoldable(c, p.sections, g, levels)
    requires SameLevels(inputs, levels) && StoreTyped(st, g)
    requires FoldSections(c, p.sections).errors == 0
    ensures Better(RunStream(p, inputs, st, sig),
                   RunStream(Prog(FoldSections(c, p.sections).sections), inputs, st, sig))
    decreases inputs
  {
    if inputs != [] {
      var rest := inputs[1..];
      match inputs[0]
      case Usr1 => ProgramFoldSound(c, p, rest, st, sig.(usr1 := sig.usr1 + 1), g, levels);
      case Usr2 => ProgramFoldSound(c, p, rest, st, sig.(usr2 := sig.usr2 + 1), g, levels);
      case Run(w, kind, t, u) =>
        assert inputs[0] in inputs;
        var st' := SetPredef(st, t, u);
        FoldableIsSafe(c, p.sections, g, levels);
        SectionsFoldSound(c, w, p.sections, kind, st', sig, g);
        SectionsSound(w, p.sections, kind, st', sig, g);
        var r := RunSections(w, p.sections, kind, st', sig);
        if r.Done? { ProgramFoldSound(c, p, rest, r.st, r.sig, g, levels); }
    }
  }
}
