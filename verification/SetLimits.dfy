// Chains in which a variable is set twice and the cleanup (tree/const.go) can
// be told from the outside: one input for each way there is.
module SetLimits {
  import opened Types
  import opened Int64
  import opened Syntax
  import opened Semantics
  import opened TypeCheck
  import opened Soundness
  import opened Fold
  import opened Chain
  import opened ChainFold
  import opened Conditions
  import opened CleanSound
  import opened Scripted
  import opened CleanExact
  import opened Asking
  import opened Telling
  import opened SetTwice

  const X := Var("x", INT_TYPE)

  function SetX(n: int64): Expr {
    Call(FSet, [X, Lit(IntV(n))], BOOL_TYPE)
  }

  // Shows x; as visible as an alert.
  const SHOW_X := Call(FTrue, [X], BOOL_TYPE)

  const EXEC := Call(FExec, [Lit(StrV("p"))], BOOL_TYPE)

  const SET_X_X := Call(FSet, [X, X], BOOL_TYPE)

  const G: Scope := map["x" := TVInt]

  const ON_SIGNAL := Call(FSignal, [Lit(StrV("SIGUSR1"))], BOOL_TYPE)

  lemma KindsOfActions(n: int64)
    ensures PlainSet(SetX(n), G) && Target(SetX(n)) == "x" && ActReads(SetX(n)) == {}
    ensures Loud(SHOW_X, G) && ActReads(SHOW_X) == {"x"}
    ensures Loud(EXEC, G) && ActReads(EXEC) == {} && !Sure(EXEC)
  {
    assert [X][1..] == [];
    assert ReadsAll([X]) == Reads(X) + ReadsAll([X][1..]) == {"x"};
  }

  lemma SetSafe(x: string, r: Expr, dt: Type, g: Scope)
    requires x in g && x != CURR_LEVEL && g[x] != TVUndef && Annotated(r, g) && TypeOf(r) == g[x]
    ensures ActSafe(Call(FSet, [Var(x, Type(g[x], TEExpr)), r], dt), g)
  {
    var v := Var(x, Type(g[x], TEExpr));
    assert [v, r][1..] == [r] && [r][1..] == [];
    assert ArgsTyped(SigOf(FSet), [v, r], 2, []);
    assert ArgsTyped(SigOf(FSet), [v, r], 1, [r]);
    assert ArgsTyped(SigOf(FSet), [v, r], 0, [v, r]);
    assert AnnotatedAll([r][1..], g);
    assert AnnotatedAll([r], g);
    assert Annotated(v, g) && AnnotatedAll([v, r][1..], g);
    assert AnnotatedAll([v, r], g);
  }

  // A set at the start of a chain is reached.
  lemma FirstReached(acts: seq<Act>)
    requires acts != [] && acts[0].con == Comma
    ensures Reachable(acts, 0)
  {
    assert true in Arrivals(acts, 0) && Taken(acts[0].con, true);
  }

  // set(x, 1), True(x), set(x, 2): the first action becomes a constant,
  // although x is shown in between.
  lemma ReadBetweenSets(c: Compilers, levels: seq<LevelDecl>)
    ensures
      var chain := [Act(Comma, SetX(1)), Act(Comma, SHOW_X), Act(Comma, SetX(2))];
      && Roots(chain) && Pass(c, chain, [], map[]).acts == chain[0 := Act(Comma, TRUE)]
      && !NeverWorse(chain, chain[0 := Act(Comma, TRUE)], G, levels)
  {
    var chain := [Act(Comma, SetX(1)), Act(Comma, SHOW_X), Act(Comma, SetX(2))];
    KindsOfActions(1);
    KindsOfActions(2);
    SetSafe("x", Lit(IntV(1)), BOOL_TYPE, G);
    PassTwoSets(c, chain, 0, 2, G, NOWHERE);
    OverwriteExact(c, chain, 0, 2, G, levels, NOWHERE);
    FirstReached(chain);
    assert Target(chain[0].what) in ActReads(chain[1].what);
  }

  // set(x, 1) => exec("p") => set(x, 2): the first action becomes a constant,
  // although the chain gets to the last one only if exec succeeds.
  lemma SetBeforeExec(c: Compilers, levels: seq<LevelDecl>)
    ensures
      var chain := [Act(Comma, SetX(1)), Act(Then, EXEC), Act(Then, SetX(2))];
      && Roots(chain) && Pass(c, chain, [], map[]).acts == chain[0 := Act(Comma, TRUE)]
      && !NeverWorse(chain, chain[0 := Act(Comma, TRUE)], G, levels)
  {
    var chain := [Act(Comma, SetX(1)), Act(Then, EXEC), Act(Then, SetX(2))];
    KindsOfActions(1);
    KindsOfActions(2);
    SetSafe("x", Lit(IntV(1)), BOOL_TYPE, G);
    PassTwoSets(c, chain, 0, 2, G, NOWHERE);
    OverwriteExact(c, chain, 0, 2, G, levels, NOWHERE);
    FirstReached(chain);
    assert !Smooth(chain, 2);
  }

  // The start of a run, with the set and with the constant.
  lemma StartOfRuns(w: World, rest: seq<Act>, st: St, sig: Sig)
    requires st.vars == map["x" := IntV(0)]
    ensures RunChain(w, [Act(Comma, SetX(1))] + rest, true, st, sig)
         == RunChain(w, rest, true, st.(vars := map["x" := IntV(1)]), sig)
    ensures RunChain(w, [Act(Comma, TRUE)] + rest, true, st, sig) == RunChain(w, rest, true, st, sig)
  {
    KindsOfActions(1);
    SimpleAct(w, SetX(1), st, sig, G);
    SimpleAct(w, TRUE, st, sig, G);
    assert st.vars["x" := IntV(1)] == map["x" := IntV(1)];
    RunFirst(w, Act(Comma, SetX(1)), rest, true, st, sig);
    RunFirst(w, Act(Comma, TRUE), rest, true, st, sig);
  }

  // A run that shows it: x keeps its old value when exec fails.
  lemma SetBeforeExecRuns(w: World, st: St, sig: Sig)
    requires st.vars == map["x" := IntV(0)] && !w.exec(st.trace, "p", [])
    ensures
      var rest := [Act(Then, EXEC), Act(Then, SetX(2))];
      var failed := WithTrace(st, ExecEv("p", []));
      && RunChain(w, [Act(Comma, SetX(1))] + rest, true, st, sig)
         == Done(failed.(vars := map["x" := IntV(1)]), sig)
      && RunChain(w, [Act(Comma, TRUE)] + rest, true, st, sig) == Done(failed, sig)
  {
    StartOfRuns(w, [Act(Then, EXEC), Act(Then, SetX(2))], st, sig);
    ExecFails(w, st.(vars := map["x" := IntV(1)]), sig);
    ExecFails(w, st, sig);
  }

  lemma ExecFails(w: World, st: St, sig: Sig)
    requires StoreTyped(st, G) && !w.exec(st.trace, "p", [])
    ensures RunChain(w, [Act(Then, EXEC), Act(Then, SetX(2))], true, st, sig)
         == Done(WithTrace(st, ExecEv("p", [])), sig)
  {
    KindsOfActions(2);
    SimpleAct(w, EXEC, st, sig, G);
    assert EventOf(EXEC, st) == ExecEv("p", []);
    assert [Act(Then, EXEC)] + [Act(Then, SetX(2))] == [Act(Then, EXEC), Act(Then, SetX(2))];
    RunFirst(w, Act(Then, EXEC), [Act(Then, SetX(2))], true, st, sig);
  }

  // ----- the later set reads the variable -----

  const X_PLUS_1 := Bin(OpAdd, X, Lit(IntV(1)), INT_TYPE)

  const SET_X_NEXT := Call(FSet, [X, X_PLUS_1], BOOL_TYPE)

  lemma NextReads()
    ensures PlainSet(SET_X_NEXT, G) && Target(SET_X_NEXT) == "x" && "x" in ActReads(SET_X_NEXT)
  {
  }

  // set(x, 1), set(x, x + 1): the first action becomes a constant.
  lemma LaterSetReads(c: Compilers, levels: seq<LevelDecl>)
    ensures
      var chain := [Act(Comma, SetX(1)), Act(Comma, SET_X_NEXT)];
      && Roots(chain) && Pass(c, chain, [], map[]).acts == chain[0 := Act(Comma, TRUE)]
      && !NeverWorse(chain, chain[0 := Act(Comma, TRUE)], G, levels)
  {
    var chain := [Act(Comma, SetX(1)), Act(Comma, SET_X_NEXT)];
    KindsOfActions(1);
    NextReads();
    SetSafe("x", Lit(IntV(1)), BOOL_TYPE, G);
    PassTwoSets(c, chain, 0, 1, G, NOWHERE);
    OverwriteExact(c, chain, 0, 1, G, levels, NOWHERE);
    FirstReached(chain);
    assert Target(chain[0].what) in ActReads(chain[1].what);
  }

  // From 0, x ends as 2 in one run and as 1 in the other.
  lemma LaterSetReadsRuns(w: World, st: St, sig: Sig)
    requires st.vars == map["x" := IntV(0)]
    ensures
      var next := [Act(Comma, SET_X_NEXT)];
      && RunChain(w, [Act(Comma, SetX(1))] + next, true, st, sig) == Done(st.(vars := map["x" := IntV(2)]), sig)
      && RunChain(w, [Act(Comma, TRUE)] + next, true, st, sig) == Done(st.(vars := map["x" := IntV(1)]), sig)
  {
    hide RunChain;
    StartOfRuns(w, [Act(Comma, SET_X_NEXT)], st, sig);
    NextRun(w, st, 0, sig);
    NextRun(w, st.(vars := map["x" := IntV(1)]), 1, sig);
  }

  lemma NextRun(w: World, st: St, n: int64, sig: Sig)
    requires st.vars == map["x" := IntV(n)] && n < 2
    ensures RunChain(w, [Act(Comma, SET_X_NEXT)], true, st, sig) == Done(st.(vars := map["x" := IntV(n + 1)]), sig)
  {
    NextReads();
    SimpleAct(w, SET_X_NEXT, st, sig, G);
    assert [Act(Comma, SET_X_NEXT)] + [] == [Act(Comma, SET_X_NEXT)];
    RunFirst(w, Act(Comma, SET_X_NEXT), [], true, st, sig);
    assert st.vars["x" := IntV(n + 1)] == map["x" := IntV(n + 1)];
  }

  // set(x, 1), set(x, x): both actions go, and x is never set.
  lemma LaterSetSelf(c: Compilers, levels: seq<LevelDecl>)
    ensures
      var chain := [Act(Comma, SetX(1)), Act(Comma, SET_X_X)];
      && Roots(chain) && Pass(c, chain, [], map[]).acts == [Act(Comma, TRUE)]
      && !NeverWorse(chain, [Act(Comma, TRUE)], G, levels)
  {
    var chain := [Act(Comma, SetX(1)), Act(Comma, SET_X_X)];
    KindsOfActions(1);
    SetSafe("x", Lit(IntV(1)), BOOL_TYPE, G);
    PassTwoSets(c, chain, 0, 1, G, NOWHERE);
    OverwriteExact(c, chain, 0, 1, G, levels, NOWHERE);
    FirstReached(chain);
    assert Target(chain[0].what) in ActReads(chain[1].what);
    assert Dropped(Replaced(chain, 0), 1) == [Act(Comma, TRUE)];
  }

  // ----- the earlier set takes a signal -----

  const B := Var("b", BOOL_TYPE)

  const SET_B_SIGNAL := Call(FSet, [B, ON_SIGNAL], BOOL_TYPE)

  const SET_B_TRUE := Call(FSet, [B, Lit(BoolV(true))], BOOL_TYPE)

  const GB: Scope := map["b" := TVBool]

  // set(b, signal("SIGUSR1")), set(b, true): the first action becomes a
  // constant, and takes no signal any more.
  lemma SignalOfSetLost(c: Compilers, levels: seq<LevelDecl>)
    ensures
      var chain := [Act(Comma, SET_B_SIGNAL), Act(Comma, SET_B_TRUE)];
      && Roots(chain) && Pass(c, chain, [], map[]).acts == chain[0 := Act(Comma, TRUE)]
      && !NeverWorse(chain, chain[0 := Act(Comma, TRUE)], GB, levels)
  {
    var chain := [Act(Comma, SET_B_SIGNAL), Act(Comma, SET_B_TRUE)];
    SignalAsks();
    SetSafe("b", ON_SIGNAL, BOOL_TYPE, GB);
    PassTwoSets(c, chain, 0, 1, GB, NOWHERE);
    OverwriteExact(c, chain, 0, 1, GB, levels, NOWHERE);
    FirstReached(chain);
  }

  lemma SignalAsks()
    ensures Annotated(ON_SIGNAL, GB) && TypeOf(ON_SIGNAL) == TVBool && Reads(ON_SIGNAL) == {}
    ensures Total(ON_SIGNAL) && Asks(ON_SIGNAL, NOWHERE) && !Quiet(ON_SIGNAL)
  {
    var args := [Lit(StrV("SIGUSR1"))];
    assert args[1..] == [];
    assert ArgsTyped(SigOf(FSignal), args, 1, []);
    assert AnnotatedAll([], GB) && TotalAll([]) && AsksAll([], NOWHERE);
    assert AnnotatedAll(args, GB) && TotalAll(args) && AsksAll(args, NOWHERE);
    assert ReadsAll(args) == Reads(args[0]) + ReadsAll(args[1..]);
  }

  // The signal stays pending.
  lemma SignalOfSetLostRuns(w: World, st: St)
    requires st.vars == map["b" := BoolV(false)]
    ensures
      var rest, end := [Act(Comma, SET_B_TRUE)], st.(vars := map["b" := BoolV(true)]);
      && RunChain(w, [Act(Comma, SET_B_SIGNAL), rest[0]], true, st, Sig(1, 0)) == Done(end, Sig(0, 0))
      && RunChain(w, [Act(Comma, TRUE), rest[0]], true, st, Sig(1, 0)) == Done(end, Sig(1, 0))
  {
    var a0, t, a1 := Act(Comma, SET_B_SIGNAL), Act(Comma, TRUE), Act(Comma, SET_B_TRUE);
    var end := st.(vars := map["b" := BoolV(true)]);
    assert [Lit(StrV("SIGUSR1"))][1..] == [];
    assert Eval(w, ON_SIGNAL, st, Sig(1, 0)) == Ok(BoolV(true), Sig(0, 0));
    assert st.vars["b" := BoolV(true)] == end.vars && end.vars["b" := BoolV(true)] == end.vars;
    assert [a0] + [a1] == [a0, a1] && [t] + [a1] == [t, a1] && [a1] + [] == [a1];
    RunFirst(w, a0, [a1], true, st, Sig(1, 0));
    RunFirst(w, t, [a1], true, st, Sig(1, 0));
    RunFirst(w, a1, [], true, end, Sig(0, 0));
    RunFirst(w, a1, [], true, st, Sig(1, 0));
  }
}
