// Programs that folding does change: one for each condition of the
// preservation theorems that the pass itself does not check.
module FoldLimits {
  import opened Types
  import opened Syntax
  import opened Semantics
  import opened TypeCheck
  import opened Soundness
  import opened Fold
  import opened Chain
  import opened ChainFold
  import opened ChainExact
  import opened Conditions
  import opened ProgFold
  import opened CleanExact
  import opened SetLimits
  import opened Scripted
  import opened Asking
  import opened Wrappers
  import opened Replacing
  import opened SecondPass

  lemma FoldOne(c: Compilers, a: Expr)
    ensures FoldAll(c, [a]) == FoldedAll(FoldExpr(c, a).errors, [FoldExpr(c, a).e])
  {
    assert FoldAll(c, [a][1..]) == FoldedAll(0, []);
  }

  // exec("p") !> set(x, x) => True(x): the constant in the middle takes the
  // last action with it, although that action runs whenever exec fails.
  lemma RestOfChainLost(c: Compilers, levels: seq<LevelDecl>)
    ensures
      var chain := [Act(Comma, EXEC), Act(NThen, SET_X_X), Act(Then, SHOW_X)];
      && Roots(chain) && CleanChain(c, chain) == Cleaned([chain[0]], true, 0)
      && !SameRuns(chain, CleanChain(c, chain).acts, G, levels)
  {
    var chain := [Act(Comma, EXEC), Act(NThen, SET_X_X), Act(Then, SHOW_X)];
    KindsOfActions(1);
    CleanOneIdle(c, chain, 1, G);
    ConstantExact(c, chain, 1, G, levels);
    assert chain[..1] == [chain[0]];
    ExecMayFail(chain);
  }

  lemma ExecMayFail(chain: seq<Act>)
    requires |chain| > 1 && chain[0] == Act(Comma, EXEC)
    ensures false in Arrivals(chain, 1)
  {
    var cons, sure := Cons(chain[..1]), SureOf(chain[..1]);
    assert cons == [Comma] && sure == [false] && cons[1..] == [] && sure[1..] == [];
    assert Ends(cons[1..], sure[1..], {true, false}) == {true, false};
    assert true in {true} && Taken(cons[0], true);
  }

  const FLAG_CHAIN := [Act(Comma, EXEC), Act(Then, SetX(1)), Act(Comma, SHOW_X)]

  // exec("p") => set(x, 1), True(x): a flag set after an action that may fail
  // meets the conditions, because the set stays.
  lemma FlagAfterExecFine(c: Compilers, levels: seq<LevelDecl>)
    ensures ChainOk(c, FLAG_CHAIN, G, levels)
  {
    hide ActReady, Removable, OverwritesOk;
    FlagStays(c);
    SetReady(levels);
    OneArgReady(SHOW_X, X, levels);
    OneArgReady(EXEC, Lit(StrV("p")), levels);
  }

  lemma FlagStays(c: Compilers)
    ensures Removable(c, FLAG_CHAIN) && OverwritesOk(FLAG_CHAIN)
  {
    assert FoldExpr(c, Lit(IntV(1))).e == Lit(IntV(1));
    assert !Goes(c, FLAG_CHAIN, 0) && !Goes(c, FLAG_CHAIN, 1) && !Goes(c, FLAG_CHAIN, 2);
  }

  lemma OneArgReady(e: Expr, a: Expr, levels: seq<LevelDecl>)
    requires e == SHOW_X || e == EXEC
    requires e.args == [a]
    ensures ActReady(e, G, levels)
  {
    assert [a][1..] == [];
    assert ArgsTyped(SigOf(e.fn), [a], 1, []);
    assert ArgsTyped(SigOf(e.fn), [a], 0, [a]);
    assert AnnotatedAll([a][1..], G) && FoldableAll([a][1..], G, levels);
    assert AnnotatedAll([a], G) && FoldableAll([a], G, levels);
  }

  lemma SetReady(levels: seq<LevelDecl>)
    ensures ActReady(SetX(1), G, levels)
  {
    SetSafe("x", Lit(IntV(1)), BOOL_TYPE, G);
    var v := Lit(IntV(1));
    assert [X, v][1..] == [v] && [v][1..] == [];
    assert FoldableAll([v][1..], G, levels);
    assert FoldableAll([v], G, levels);
    assert AnnotatedAll([X, v], G);
  }

  const PAYLOAD := Call(FPayload, [Lit(StrV("a.yar"))], BOOL_TYPE)

  const COMPILED := Call(FPayload, [Pattern("a.yar")], BOOL_TYPE)

  function Shown(e: Expr): Expr {
    Call(FTrue, [e], BOOL_TYPE)
  }

  // True(payload("a.yar")), set(x, x): both actions fold without an error, but
  // the second one asks for another pass, and that pass reports the first.
  lemma CompiledTwice(c: Compilers)
    requires c.yara("a.yar")
    ensures
      var chain := [Act(Comma, Shown(PAYLOAD)), Act(Comma, SET_X_X)];
      && Roots(chain) && Pass(c, chain, [], map[]) == Cleaned([Act(Comma, Shown(COMPILED))], true, 0)
      && CleanChain(c, chain).errors > 0
  {
    hide FoldExpr, Pass, CleanChain, Seen, PatternsIn, Refolded;
    FirstPassCompiles(c);
    CleanStep(c, [Act(Comma, Shown(PAYLOAD)), Act(Comma, SET_X_X)]);
    LaterReported(c);
    SecondPassErrors(c, [Act(Comma, Shown(COMPILED))]);
  }

  lemma FirstPassCompiles(c: Compilers)
    requires c.yara("a.yar")
    ensures
      var chain := [Act(Comma, Shown(PAYLOAD)), Act(Comma, SET_X_X)];
      Roots(chain) && Pass(c, chain, [], map[]) == Cleaned([Act(Comma, Shown(COMPILED))], true, 0)
  {
    hide FoldExpr, Pass, Seen, ErrorsIn;
    var a0, a1 := Act(Comma, Shown(PAYLOAD)), Act(Comma, SET_X_X);
    var none: map<string, Slot> := map[];
    ShownFolds(c);
    ChainRoots(c);
    PassOver(c, [a0], [a1], [], none);
    PassIdle(c, a1, [], [] + FoldEach(c, [a0]), G);
    assert SlotsAfter([a0], 0, none) == none by { assert [a0][1..] == []; }
    assert [a0] + [a1] == [a0, a1] && [a1] + [] == [a1];
    assert [] + FoldEach(c, [a0]) == [Act(Comma, Shown(COMPILED))];
    PassErrors(c, [a0, a1], [], none);
    NoErrorsYet(c);
  }

  lemma ShownFolds(c: Compilers)
    requires c.yara("a.yar")
    ensures FoldExpr(c, Shown(PAYLOAD)) == Folded(0, Shown(COMPILED))
    ensures FoldExpr(c, Shown(COMPILED)).errors > 0
  {
    FoldOne(c, Pattern("a.yar"));
    assert [Pattern("a.yar")] + [Lit(StrV("a.yar"))][1..] == [Pattern("a.yar")];
    assert FoldExpr(c, PAYLOAD) == Folded(0, COMPILED);
    FoldOne(c, PAYLOAD);
    FoldOne(c, COMPILED);
  }

  lemma NoErrorsYet(c: Compilers)
    requires c.yara("a.yar")
    ensures
      var chain := [Act(Comma, Shown(PAYLOAD)), Act(Comma, SET_X_X)];
      ErrorsIn(c, chain[..Seen(c, chain)]) == 0
  {
    hide FoldExpr, Seen, ErrorsIn;
    var chain := [Act(Comma, Shown(PAYLOAD)), Act(Comma, SET_X_X)];
    ShownFolds(c);
    SelfFolds(c);
    SeenErrors(c, chain);
    SeenErrors(c, chain[1..]);
    NothingSeen(c, chain[2..]);
    assert chain[1..][1..] == chain[2..];
  }

  lemma SelfFolds(c: Compilers)
    ensures FoldExpr(c, SET_X_X) == Folded(0, TRUE)
  {
  }

  lemma NothingSeen(c: Compilers, acts: seq<Act>)
    requires acts == []
    ensures ErrorsIn(c, acts[..Seen(c, acts)]) == 0
  {
  }

  lemma LaterReported(c: Compilers)
    requires c.yara("a.yar")
    ensures
      var later := [Act(Comma, Shown(COMPILED))];
      && Roots(later) && AllPlain(later) && (forall a | a in later :: Refolded(c, a.what))
      && PatternsIn(later[..Seen(c, later)]) > 0
  {
    var later := [Act(Comma, Shown(COMPILED))];
    hide FoldExpr, FoldAll, Seen, PatternsIn;
    ShownPlain();
    ShownFolds(c);
    PlainFolds(c, Shown(PAYLOAD));
    SeenPatterns(c, later);
  }

  lemma ShownPlain()
    ensures RootPlain(Shown(PAYLOAD)) && RootPlain(Shown(COMPILED)) && Patterns(Shown(COMPILED)) == 1
  {
    OnePlain(Lit(StrV("a.yar")));
    OnePlain(Pattern("a.yar"));
    OnePlain(PAYLOAD);
    OnePlain(COMPILED);
  }

  lemma OnePlain(e: Expr)
    ensures NoSetAll([e]) <==> NoSet(e)
    ensures PatternsAll([e]) == Patterns(e)
  {
    assert [e][1..] == [];
  }

  lemma ChainRoots(c: Compilers)
    requires c.yara("a.yar")
    ensures
      var a := Act(Comma, Shown(PAYLOAD));
      Passes(c, [a], map[]) && Root(a.what) && Root(SET_X_X)
  {
    ShownFolds(c);
  }

  // A rule left without actions is dropped, and with it the signal that its
  // trigger would have consumed.
  lemma SignalLost(c: Compilers, w: World, st: St)
    requires st.vars == map["x" := IntV(0)]
    ensures
      var r := Rule(ON_SIGNAL, [Act(Comma, SET_X_X)]);
      && FoldRule(c, r) == FoldedRules(0, [])
      && RunRule(w, r, st, Sig(1, 0)) == Done(st, Sig(0, 0))
      && RunRules(w, [], st, Sig(1, 0)) == Done(st, Sig(1, 0))
  {
    FoldOne(c, Lit(StrV("SIGUSR1")));
    NothingLeft(c);
    SignalTaken(w, st);
  }

  lemma NothingLeft(c: Compilers)
    ensures Roots([Act(Comma, SET_X_X)]) && CleanChain(c, [Act(Comma, SET_X_X)]) == Cleaned([], true, 0)
  {
    var a := Act(Comma, SET_X_X);
    assert [a][1..] == [];
    assert Pass(c, [], [], map["x" := Gone]) == Cleaned([], false, 0);
    assert Pass(c, [a], [], map[]) == Cleaned([], true, 0);
    assert CleanChain(c, []) == Cleaned([], false, 0);
  }

  lemma SignalSeen(w: World, st: St)
    ensures Eval(w, ON_SIGNAL, st, Sig(1, 0)) == Ok(BoolV(true), Sig(0, 0))
  {
    assert [Lit(StrV("SIGUSR1"))][1..] == [];
  }

  lemma SignalTaken(w: World, st: St)
    requires st.vars == map["x" := IntV(0)]
    ensures RunRule(w, Rule(ON_SIGNAL, [Act(Comma, SET_X_X)]), st, Sig(1, 0)) == Done(st, Sig(0, 0))
  {
    var a := Act(Comma, SET_X_X);
    SignalSeen(w, st);
    hide Eval, RunAct;
    IdleDoesNothing(w, SET_X_X, st, Sig(0, 0), G);
    RunFirst(w, a, [], true, st, Sig(0, 0));
    assert [a] + [] == [a];
  }

  const T_AND_SIGNAL :=
    Bin(OpLogAnd, Call(FMsgTypeIn, [Lit(StrV("T"))], BOOL_TYPE), ON_SIGNAL, BOOL_TYPE)

  // A message of type "T" gets msgtypein("T") && signal("SIGUSR1") to its
  // signal call, so dropping its rule is noticed.
  lemma QueryBeforeSignal(m: MsgCtx, yes: bool)
    requires m.rostype == "T"
    ensures Asks(T_AND_SIGNAL, Scene(yes, m)) && Total(T_AND_SIGNAL) && !Quiet(T_AND_SIGNAL)
  {
    TypeKnown(m, yes);
    OneAsks(Lit(StrV("T")), Scene(yes, m));
    OneAsks(Lit(StrV("SIGUSR1")), Scene(yes, m));
  }

  lemma OneAsks(e: Expr, scene: Scene)
    ensures AsksAll([e], scene) == Asks(e, scene) && TotalAll([e]) == Total(e) && QuietAll([e]) == Quiet(e)
  {
    assert [e][1..] == [];
  }

  lemma TypeKnown(m: MsgCtx, yes: bool)
    requires m.rostype == "T"
    ensures KnownCall(FMsgTypeIn, [Lit(StrV("T"))], Scene(yes, m)) == Some(true)
  {
    var vs := [StrV("T")];
    assert [Lit(StrV("T"))][1..] == [] && vs[1..] == [];
    assert Vals([Lit(StrV("T"))], St(map[], 0, false, [])) == vs;
    assert StrFields(vs) == ["T"];
  }

  // The checker lets a rule set a predefined variable to any integer: its
  // test for them is reached only when the types do not match.
  lemma CheckerAcceptsSetOfBuiltin(k: Checks, x: string, e: Expr, g: Scope)
    requires x in BUILTIN_VARS && ScopeOk(g) && x in g && g[x] == TVInt
    requires Parsed(e, g) && TypeOf(e) == TVInt && Specials(k, e)
    ensures
      var a := Call(FSet, [Var(x, INT_TYPE), e], FRESH_TYPE);
      Parsed(a, g) && ActErrors(k, Annotate(a), SectionType("Msg")) == 0
  {
    var v := Var(x, INT_TYPE);
    var args := [v, e];
    var a := Call(FSet, args, FRESH_TYPE);
    assert args[1..] == [e] && [e][1..] == [] && args[2..] == [];
    assert SpecialsAll(k, [e]) by { assert SpecialsAll(k, [e][1..]); }
    assert ParsedAll([e], g) by { assert ParsedAll([e][1..], g); }
    assert Specials(k, v) && Parsed(v, g);
    assert ArgsTyped(SigOf(FSet), args, 2, args[2..]);
    assert ArgsTyped(SigOf(FSet), args, 1, args[1..]);
    CallErrorsExact(k, a, g, SectionType("Msg"), true);
  }
}
