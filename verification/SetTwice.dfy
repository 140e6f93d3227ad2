// Exactly when replacing an overwritten set by a constant (tree/const.go) can
// not be told from the outside.  The cleanup replaces it always.
module SetTwice {
  import opened Types
  import opened Syntax
  import opened Semantics
  import opened TypeCheck
  import opened Soundness
  import opened Fold
  import opened Chain
  import opened ChainFold
  import opened ChainExact
  import opened Conditions
  import opened CleanSound
  import opened Scripted
  import opened CleanExact
  import opened Replacing
  import opened Asking
  import opened Telling

  // ----- the chains -----

  // The right side of the earlier set: the variable plus or minus something,
  // or any expression without the variable that evaluates in the scene.
  predicate EarlierRight(e: Expr, v: string, g: Scope, scene: Scene) {
    if v in Reads(e) then Shifted(e, g) else Total(e) && Asks(e, scene)
  }

  // Two sets of one variable among actions that can be seen, all of which may
  // read it.  The later set takes a literal, a variable, or a variable plus
  // or minus a literal.
  predicate TwoSets(acts: seq<Act>, i: nat, j: nat, g: Scope, scene: Scene) {
    && i < j < |acts| && IsSet(acts[i].what) && ActSafe(acts[i].what, g) && PlainSet(acts[j].what, g)
    && SameTarget(acts[i].what, acts[j].what)
    && EarlierRight(acts[i].what.args[1], Target(acts[i].what), g, scene)
    && OthersLoud(acts, i, j, g)
  }

  // From any typed store, in any world, a run of the first chain that does
  // not fault is a run of the second.
  ghost predicate NeverWorse(a: seq<Act>, b: seq<Act>, g: Scope, levels: seq<LevelDecl>) {
    forall w: World, st, sig | w.levels == levels && StoreTyped(st, g) ::
      Better(RunChain(w, a, true, st, sig), RunChain(w, b, true, st, sig))
  }

  // ----- when it goes unnoticed -----

  lemma NotReached(w: World, before: seq<Act>, a: Act, b: Act, after: seq<Act>, rest: seq<Act>, st: St, sig: Sig)
    requires a.con == b.con
    requires forall ok | ok in Ends(Cons(before), SureOf(before), {true}) :: !Taken(a.con, ok)
    ensures RunChain(w, before + [a] + after, true, st, sig) == RunChain(w, before + [b] + rest, true, st, sig)
  {
    FrontEnds(w, before, true, st, sig, {true});
    var f := RunFront(w, before, true, st, sig);
    RunAround(w, before, a, after, true, st, sig);
    RunAround(w, before, b, rest, true, st, sig);
    if f.Here? {
      RunFirst(w, a, after, f.success, f.st, f.sig);
      RunFirst(w, b, rest, f.success, f.st, f.sig);
    }
  }

  lemma AllShaped(acts: seq<Act>, i: nat, j: nat, g: Scope, scene: Scene)
    requires TwoSets(acts, i, j, g, scene)
    ensures forall a | a in acts :: SetShaped(a.what)
  {
    forall a | a in acts ensures SetShaped(a.what) {
      var k :| 0 <= k < |acts| && acts[k] == a;
      assert k == i || k == j || Loud(acts[k].what, g);
    }
  }

  lemma ReplaceUnnoticed(acts: seq<Act>, i: nat, j: nat, g: Scope, levels: seq<LevelDecl>, scene: Scene)
    requires TwoSets(acts, i, j, g, scene) && (!Reachable(acts, i) || Overwritten(acts, i, j))
    ensures NeverWorse(acts, Replaced(acts, i), g, levels)
  {
    AllShaped(acts, i, j, g, scene);
    var b := acts[i].(what := TRUE);
    Apart(acts, i, b);
    forall w: World, st, sig | w.levels == levels && StoreTyped(st, g)
      ensures Better(RunChain(w, acts, true, st, sig), RunChain(w, Replaced(acts, i), true, st, sig))
    {
      if !Reachable(acts, i) {
        NotReached(w, acts[..i], acts[i], b, acts[i + 1..], acts[i + 1..], st, sig);
      } else {
        OverwriteRun(w, acts, i, j, st, sig);
      }
    }
  }


  // ----- the earlier set takes the value of an expression -----

  // The chain with a value in place of the expression.
  function WithValue(acts: seq<Act>, i: nat, val: Value): (r: seq<Act>)
    requires i < |acts| && IsSet(acts[i].what) && SetShaped(acts[i].what)
    ensures |r| == |acts|
  {
    var e := acts[i].what;
    acts[i := acts[i].(what := Call(FSet, [e.args[0], Lit(val)], e.dt))]
  }

  // The set at i is run, and its right side has a value there.
  predicate Evaluates(w: World, acts: seq<Act>, i: nat, val: Value, st: St, sig: Sig, sig': Sig)
    requires i < |acts| && IsSet(acts[i].what) && SetShaped(acts[i].what)
  {
    var f := RunFront(w, acts[..i], true, st, sig);
    && f.Here? && f.sig == sig && Taken(acts[i].con, f.success)
    && Eval(w, acts[i].what.args[1], f.st, sig) == Ok(val, sig')
  }

  lemma RunsAsValue(w: World, acts: seq<Act>, i: nat, val: Value, st: St, sig: Sig, sig': Sig, g: Scope)
    requires i < |acts| && IsSet(acts[i].what) && SetShaped(acts[i].what) && ActSafe(acts[i].what, g)
    requires Evaluates(w, acts, i, val, st, sig, sig')
    requires Target(acts[i].what) in g && ValueType(val) == g[Target(acts[i].what)]
    requires StoreTyped(st, g) && AllSimple(acts[..i], g) && AllSimple(acts[i + 1..], g)
    ensures
      var r := RunChain(w, WithValue(acts, i, val), true, st, sig);
      r.Done? && RunChain(w, acts, true, st, sig) == Done(r.st, sig')
  {
    var f := RunFront(w, acts[..i], true, st, sig);
    var a, b, rest := acts[i], WithValue(acts, i, val)[i], acts[i + 1..];
    Apart(acts, i, b);
    SimpleFrontTyped(w, acts[..i], true, st, sig, g);
    RunAround(w, acts[..i], a, rest, true, st, sig);
    RunAround(w, acts[..i], b, rest, true, st, sig);
    RunFirst(w, a, rest, f.success, f.st, sig);
    RunFirst(w, b, rest, f.success, f.st, sig);
    TargetTyped(a.what, g);
    var st' := f.st.(vars := f.st.vars[Target(a.what) := val]);
    assert RunAct(w, a.what, f.st, sig) == ActOk(true, st', sig');
    assert RunAct(w, b.what, f.st, sig) == ActOk(true, st', sig);
    SigPasses(w, rest, true, st', sig, sig', g);
  }

  lemma TargetTyped(e: Expr, g: Scope)
    requires ActSafe(e, g) && IsSet(e)
    ensures Target(e) in g && Target(e) != CURR_LEVEL && e.args[0] == Var(Target(e), Type(g[Target(e)], TEExpr))
    ensures TypeOf(e.args[1]) == g[Target(e)]
  {
    assert e.args == [e.args[0], e.args[1]];
    assert Annotated(e.args[0], g);
  }

  // Wherever the variables are the same, the expression has this value.
  ghost predicate HasValue(w: World, e: Expr, st: St, val: Value, sig: Sig) {
    forall s: St | s.vars == st.vars && s.lvl == st.lvl :: Eval(w, e, s, BOTH) == Ok(val, sig)
  }

  predicate GoodStore(st: St, v: string, val: Value, g: Scope) {
    && StoreTyped(st, g) && st.trace == [] && v in g && v in st.vars
    && st.vars[v] != val && ValueType(val) == g[v]
  }

  // A store, and the value and the signals that the earlier set makes of it:
  // the value is not the one the variable has.
  lemma EarlierValue(w: World, e: Expr, g: Scope, scene: Scene) returns (st: St, val: Value, sig: Sig)
    requires ScopeOk(g) && (CURR_LEVEL in g ==> g[CURR_LEVEL] == TVInt) && Shows(w, scene)
    requires IsSet(e) && ActSafe(e, g) && EarlierRight(e.args[1], Target(e), g, scene)
    ensures GoodStore(st, Target(e), val, g) && HasValue(w, e.args[1], st, val, sig)
    ensures !Quiet(e.args[1]) ==> sig != BOTH
  {
    if Target(e) in Reads(e.args[1]) {
      st, val := ShiftedValue(w, e, g);
      sig := BOTH;
    } else {
      st, val, sig := FreshValue(w, e, g, scene);
    }
  }

  lemma ShiftedValue(w: World, e: Expr, g: Scope) returns (st: St, val: Value)
    requires ScopeOk(g) && (CURR_LEVEL in g ==> g[CURR_LEVEL] == TVInt)
    requires IsSet(e) && ActSafe(e, g) && Target(e) in Reads(e.args[1]) && Shifted(e.args[1], g)
    ensures GoodStore(st, Target(e), val, g) && HasValue(w, e.args[1], st, val, BOTH) && Quiet(e.args[1])
  {
    var base, v, r := Filled(g, USR1), Target(e), e.args[1];
    TargetTyped(e, g);
    assert Reads(r) == Reads(r.left) + Reads(r.right) == {r.left.name};
    ShiftedVal(w, r, base, BOTH, g);
    ShiftTells(r.op, base.vars[v].i, base.vars[v].i, r.right.v.i);
    st, val := base, Val(r, base);
    forall s: St | s.vars == st.vars && s.lvl == st.lvl ensures Eval(w, r, s, BOTH) == Ok(val, BOTH) {
      ShiftedVal(w, r, s, BOTH, g);
      PlainVal(r, s, base);
    }
  }

  lemma FreshValue(w: World, e: Expr, g: Scope, scene: Scene) returns (st: St, val: Value, sig: Sig)
    requires ScopeOk(g) && (CURR_LEVEL in g ==> g[CURR_LEVEL] == TVInt) && Shows(w, scene)
    requires IsSet(e) && ActSafe(e, g)
    requires Target(e) !in Reads(e.args[1]) && Total(e.args[1]) && Asks(e.args[1], scene)
    ensures GoodStore(st, Target(e), val, g) && HasValue(w, e.args[1], st, val, sig)
    ensures !Quiet(e.args[1]) ==> sig != BOTH
  {
    var base, v, r := Filled(g, USR1), Target(e), e.args[1];
    TargetTyped(e, g);
    RightTyped(e, g);
    TotalOk(w, scene, r, base, BOTH, g);
    ValueTyped(w, r, base, BOTH, g);
    var x := Eval(w, r, base, BOTH);
    st, val, sig := base.(vars := base.vars[v := OtherValue(x.v)]), x.v, x.sig;
    if !Quiet(r) { NotQuietTakes(w, scene, r, g); }
    forall s: St | s.vars == st.vars && s.lvl == st.lvl ensures Eval(w, r, s, BOTH) == Ok(val, sig) {
      EvalAlike(w, scene, r, s, base, v, BOTH);
    }
  }

  lemma RightTyped(e: Expr, g: Scope)
    requires ActSafe(e, g) && IsSet(e)
    ensures Annotated(e.args[1], g) && TypeOf(e.args[1]) != TVUndef
  {
    assert e.args[1..] == [e.args[1]];
    assert AnnotatedAll(e.args[1..], g) && ArgsTyped(SigOf(FSet), e.args, 1, e.args[1..]);
  }

  // ----- the world that gives it away -----

  lemma ValuePlain(acts: seq<Act>, i: nat, j: nat, val: Value, st: St, g: Scope, scene: Scene)
    requires ScopeOk(g) && TwoSets(acts, i, j, g, scene) && GoodStore(st, Target(acts[i].what), val, g)
    ensures
      var plain := WithValue(acts, i, val);
      TwoPlain(plain, i, j, g) && News(plain, i, st, g) && Replaced(plain, i) == Replaced(acts, i)
      && Target(plain[i].what) == Target(acts[i].what)
    ensures AllSimple(acts[..i], g) && AllSimple(acts[i + 1..], g) && AllSimple(WithValue(acts, i, val), g)
    ensures AllSimple(Replaced(acts, i), g)
  {
    var plain := WithValue(acts, i, val);
    TargetTyped(acts[i].what, g);
    LoudParts(acts, i, j, g);
    assert forall k | 0 <= k < |acts| :: k == i || k == j || Loud(acts[k].what, g);
  }

  // One script serves the chain, the one with the value, and the one without
  // the set.
  lemma SameAnswers(acts: seq<Act>, outs: seq<bool>, i: nat, e: Expr)
    requires i < |acts| == |outs| && IsSet(acts[i].what) && !Noisy(e) && Sure(e)
    ensures
      var less := acts[i := acts[i].(what := e)];
      Answers(less, outs) == Answers(acts, outs) && Cons(less) == Cons(acts) && SureOf(less) == SureOf(acts)
  {
    var less := acts[i := acts[i].(what := e)];
    if i > 0 {
      assert less[1..] == acts[1..][i - 1 := acts[i].(what := e)];
      SameAnswers(acts[1..], outs[1..], i - 1, e);
    } else {
      assert less[1..] == acts[1..];
    }
  }

  // What the front of the chain does in that world.
  lemma GetsToSet(
      levels: seq<LevelDecl>, scene: Scene, acts: seq<Act>, outs: seq<bool>, i: nat, st: St, sig: Sig, g: Scope)
    requires StoreTyped(st, g) && i < |acts| == |outs| && AllLoud(acts[..i], g)
    requires Respects(SureOf(acts), outs) && i < Ran(Cons(acts), outs, true)
    ensures
      var f := RunFront(Script(levels, scene, Answers(acts, outs), |st.trace|), acts[..i], true, st, sig);
      && f.Here? && Taken(acts[i].con, f.success) && f.sig == sig
      && f.st.vars == st.vars && f.st.lvl == st.lvl && StoreTyped(f.st, g)
  {
    var w, before, o := Script(levels, scene, Answers(acts, outs), |st.trace|), acts[..i], outs[..i];
    ConsUpTo(acts, i);
    AnswersUpTo(acts, outs, i);
    assert Respects(SureOf(before), o);
    ScriptedOutcomes(levels, scene, Answers(acts, outs), |st.trace|, before, o, st, sig, g);
    FrontRuns(w, before, true, st, sig, g);
    LoudEffect(before, st, g);
    RanReaches(Cons(acts), outs, true, i + 1);
    forall m | 0 <= m < i ensures Taken(Cons(before)[m], Before(o, true, m)) {
      assert Taken(Cons(acts)[m], Before(outs, true, m));
    }
    RanReaches(Cons(before), o, true, i);
    assert Taken(Cons(acts)[i], Before(outs, true, i));
  }

  // The run of the chain itself: that of the chain with the value, but for
  // the signals.
  lemma RunsInScene(
      levels: seq<LevelDecl>, scene: Scene, acts: seq<Act>, i: nat, j: nat, outs: seq<bool>,
      st: St, val: Value, sig: Sig, g: Scope)
    requires ScopeOk(g) && TwoSets(acts, i, j, g, scene) && GoodStore(st, Target(acts[i].what), val, g)
    requires Respects(SureOf(acts), outs) && i < Ran(Cons(acts), outs, true)
    requires HasValue(Script(levels, scene, Answers(acts, outs), 0), acts[i].what.args[1], st, val, sig)
    ensures
      var w, n := Script(levels, scene, Answers(acts, outs), 0), Ran(Cons(acts), outs, true);
      RunChain(w, acts, true, st, BOTH) == Done(EffectAll(WithValue(acts, i, val)[..n], st), sig)
  {
    var w, n := Script(levels, scene, Answers(acts, outs), 0), Ran(Cons(acts), outs, true);
    var plain := WithValue(acts, i, val);
    ValuePlain(acts, i, j, val, st, g, scene);
    LoudParts(acts, i, j, g);
    GetsToSet(levels, scene, acts, outs, i, st, BOTH, g);
    var f := RunFront(w, acts[..i], true, st, BOTH);
    assert Eval(w, acts[i].what.args[1], f.st, BOTH) == Ok(val, sig);
    RunsAsValue(w, acts, i, val, st, BOTH, sig, g);
    SameAnswers(acts, outs, i, plain[i].what);
    ScriptedRun(levels, scene, Answers(acts, outs), plain, outs, st, BOTH, g);
  }

  lemma ReplaceNoticed(acts: seq<Act>, i: nat, j: nat, g: Scope, levels: seq<LevelDecl>, scene: Scene)
    requires ScopeOk(g) && (CURR_LEVEL in g ==> g[CURR_LEVEL] == TVInt)
    requires TwoSets(acts, i, j, g, scene) && Reachable(acts, i) && !Overwritten(acts, i, j)
    ensures !NeverWorse(acts, Replaced(acts, i), g, levels)
  {
    var outs := TellingOutcomes(acts, i, j);
    var w, n := Script(levels, scene, Answers(acts, outs), 0), Ran(Cons(acts), outs, true);
    var st, val, sig := EarlierValue(w, acts[i].what, g, scene);
    RunsInScene(levels, scene, acts, i, j, outs, st, val, sig, g);
    ValuePlain(acts, i, j, val, st, g, scene);
    SameAnswers(acts, outs, i, TRUE);
    ScriptedRun(levels, scene, Answers(acts, outs), Replaced(acts, i), outs, st, BOTH, g);
    DiffersAnyway(acts, i, j, outs, st, val, sig, g, scene);
    assert w.levels == levels;
    assert !Better(RunChain(w, acts, true, st, BOTH), RunChain(w, Replaced(acts, i), true, st, BOTH));
  }

  // Another state, or another number of signals.
  lemma DiffersAnyway(
      acts: seq<Act>, i: nat, j: nat, outs: seq<bool>, st: St, val: Value, sig: Sig, g: Scope, scene: Scene)
    requires ScopeOk(g) && TwoSets(acts, i, j, g, scene) && GoodStore(st, Target(acts[i].what), val, g)
    requires |outs| == |acts| && i < Ran(Cons(acts), outs, true) && !Overwritten(acts, i, j)
    requires j < Ran(Cons(acts), outs, true) <==> forall k | i < k <= j :: Smooth(acts, k)
    requires !Quiet(acts[i].what.args[1]) ==> sig != BOTH
    ensures
      var n := Ran(Cons(acts), outs, true);
      EffectAll(WithValue(acts, i, val)[..n], st) != EffectAll(Replaced(acts, i)[..n], st) || sig != BOTH
  {
    var plain := WithValue(acts, i, val);
    ValuePlain(acts, i, j, val, st, g, scene);
    assert Cons(plain) == Cons(acts);
    if sig == BOTH {
      if j < Ran(Cons(acts), outs, true) {
        var m := ReadSomewhere(acts, i, j);
        assert plain[m] == acts[m];
      }
      Differs(plain, i, j, outs, st, g);
    }
  }

  lemma ReadSomewhere(acts: seq<Act>, i: nat, j: nat) returns (m: nat)
    requires i < j < |acts| && IsSet(acts[i].what) && SetShaped(acts[i].what) && !Overwritten(acts, i, j)
    requires Quiet(acts[i].what.args[1]) && forall k | i < k <= j :: Smooth(acts, k)
    ensures i < m <= j && Target(acts[i].what) in ActReads(acts[m].what)
  {
    m :| i < m <= j && Target(acts[i].what) in ActReads(acts[m].what);
  }

  // ----- a later set of the variable to itself -----

  // The cleanup takes that one out, too; then the variable is not set at all.
  lemma SelfNoticed(acts: seq<Act>, i: nat, j: nat, g: Scope, levels: seq<LevelDecl>, scene: Scene)
    requires ScopeOk(g) && (CURR_LEVEL in g ==> g[CURR_LEVEL] == TVInt)
    requires TwoSets(acts, i, j, g, scene) && Reachable(acts, i) && acts[j].what.args[1] == acts[j].what.args[0]
    ensures !NeverWorse(acts, Dropped(Replaced(acts, i), j), g, levels)
  {
    var outs := TellingOutcomes(acts, i, j);
    var w, n := Script(levels, scene, Answers(acts, outs), 0), Ran(Cons(acts), outs, true);
    var st, val, sig := EarlierValue(w, acts[i].what, g, scene);
    RunsInScene(levels, scene, acts, i, j, outs, st, val, sig, g);
    ValuePlain(acts, i, j, val, st, g, scene);
    SelfKeeps(WithValue(acts, i, val), i, j, n, st, g);
    NoSetsLeft(acts, i, j, g);
    NoSetsKeepVars(w, Dropped(Replaced(acts, i), j), true, st, BOTH, g);
    assert w.levels == levels;
    assert !Better(RunChain(w, acts, true, st, BOTH), RunChain(w, Dropped(Replaced(acts, i), j), true, st, BOTH));
  }

  lemma NoSetsLeft(acts: seq<Act>, i: nat, j: nat, g: Scope)
    requires i < j < |acts| && OthersLoud(acts, i, j, g)
    ensures
      var less := Dropped(Replaced(acts, i), j);
      AllSimple(less, g) && forall a | a in less :: !IsSet(a.what)
  {
    assert forall k | 0 <= k < |acts| :: k == i || k == j || Loud(acts[k].what, g);
    var r := Replaced(acts, i);
    forall a | a in Dropped(r, j) ensures a.what == TRUE || Loud(a.what, g) {
      var k :| 0 <= k < |r| && k != j && r[k] == a;
    }
  }

  lemma SelfKeeps(acts: seq<Act>, i: nat, j: nat, n: nat, st: St, g: Scope)
    requires TwoPlain(acts, i, j, g) && News(acts, i, st, g) && i < n <= |acts|
    requires acts[j].what.args[1] == acts[j].what.args[0]
    ensures EffectAll(acts[..n], st).vars != st.vars
  {
    var v := Target(acts[i].what);
    LoudParts(acts, i, j, g);
    LoudUpTo(acts, i, j, n, g);
    if n <= j {
      BetweenSets(acts, i, n, st, g);
    } else {
      BetweenSets(acts, i, j, st, g);
      AfterLater(acts, j, n, st, g);
    }
    assert EffectAll(acts[..n], st).vars[v] == Val(acts[i].what.args[1], st);
  }

  // ----- what the cleanup does to such a chain -----

  lemma LaterFixed(c: Compilers, e: Expr, g: Scope)
    requires PlainSet(e, g)
    ensures FoldExpr(c, e).e == if e.args[1] == e.args[0] then TRUE else e
  {
    assert e.args == [e.args[0], e.args[1]];
    if !SameSymbol(e.args[0], e.args[1]) {
      FoldPair(c, e.args[0], e.args[1]);
      if Shifted(e.args[1], g) { ShiftFixed(c, e.args[1], g); }
    }
  }

  lemma ShiftFixed(c: Compilers, e: Expr, g: Scope)
    requires Shifted(e, g)
    ensures FoldExpr(c, e) == Folded(0, e)
  {
  }

  lemma EarlierStays(c: Compilers, e: Expr, g: Scope, scene: Scene)
    requires IsSet(e) && ActSafe(e, g) && EarlierRight(e.args[1], Target(e), g, scene)
    ensures Root(e) && !IsConstant(FoldExpr(c, e).e)
  {
    TargetTyped(e, g);
    FoldKeepsSet(c, e);
    if Shifted(e.args[1], g) { ShiftFixed(c, e.args[1], g); }
    if !SameSymbol(e.args[0], e.args[1]) { FoldSetIs(c, e); }
  }

  lemma FoldSetIs(c: Compilers, e: Expr)
    requires IsSet(e) && |e.args| == 2 && e.args[0].Var? && !SameSymbol(e.args[0], e.args[1])
    ensures FoldExpr(c, e).e == Call(FSet, [e.args[0], FoldExpr(c, e.args[1]).e], e.dt)
  {
    assert e.args == [e.args[0], e.args[1]];
    FoldPair(c, e.args[0], e.args[1]);
  }

  lemma PassTwoSets(c: Compilers, acts: seq<Act>, i: nat, j: nat, g: Scope, scene: Scene)
    requires TwoSets(acts, i, j, g, scene)
    ensures Roots(acts)
    ensures
      var p, e := Pass(c, acts, [], map[]), acts[j].what;
      p.changed && p.acts == if e.args[1] == e.args[0] then Dropped(Replaced(acts, i), j) else Replaced(acts, i)
  {
    EarlierStays(c, acts[i].what, g, scene);
    LaterFixed(c, acts[j].what, g);
    forall k | 0 <= k < |acts| && k != i && k != j
      ensures FoldExpr(c, acts[k].what) == Folded(0, acts[k].what) && Root(acts[k].what) && !IsSet(acts[k].what)
    {
      LoudFixed(c, acts[k].what, g);
    }
    assert OneTwice(c, acts, i, j);
    PassTwice(c, acts, i, j);
    RewrittenHere(c, acts, i, j);
  }

  lemma DroppedAlike(a: seq<Act>, b: seq<Act>, j: nat)
    requires j < |a| == |b| && a[j].con == b[j].con && forall k | 0 <= k < |a| && k != j :: a[k] == b[k]
    ensures Dropped(a, j) == Dropped(b, j)
  {
    assert a[..j] == b[..j] && a[j + 1..] == b[j + 1..];
  }

  lemma RewrittenHere(c: Compilers, acts: seq<Act>, i: nat, j: nat)
    requires i < j < |acts|
    requires forall k | 0 <= k < |acts| && k != i && k != j :: FoldExpr(c, acts[k].what).e == acts[k].what
    ensures Dropped(Rewritten(c, acts, i), j) == Dropped(Replaced(acts, i), j)
    ensures Rewritten(c, acts, i)[j] == Act(acts[j].con, FoldExpr(c, acts[j].what).e)
    ensures FoldExpr(c, acts[j].what).e == acts[j].what ==> Rewritten(c, acts, i) == Replaced(acts, i)
  {
    var r, s := Rewritten(c, acts, i), Replaced(acts, i);
    hide FoldExpr;
    forall k | 0 <= k < |acts| && k != j ensures r[k] == s[k] {
    }
    DroppedAlike(r, s, j);
  }

  // The cleanup replaces the earlier of two sets of a variable by a constant,
  // whatever stands between them and in them.  No run that does not fault
  // shows it, from any store in any world, exactly when the chain can not get
  // to the earlier set, or the earlier set takes no signal, every connector
  // between the two is always taken, and neither an action between them nor
  // the later set reads the variable.
  lemma OverwriteExact(
      c: Compilers, acts: seq<Act>, i: nat, j: nat, g: Scope, levels: seq<LevelDecl>, scene: Scene)
    requires ScopeOk(g) && (CURR_LEVEL in g ==> g[CURR_LEVEL] == TVInt)
    requires TwoSets(acts, i, j, g, scene)
    ensures Roots(acts)
    ensures NeverWorse(acts, Pass(c, acts, [], map[]).acts, g, levels)
       <==> !Reachable(acts, i) || Overwritten(acts, i, j)
  {
    PassTwoSets(c, acts, i, j, g, scene);
    if acts[j].what.args[1] == acts[j].what.args[0] {
      SelfExact(acts, i, j, g, levels, scene);
    } else if !Reachable(acts, i) || Overwritten(acts, i, j) {
      ReplaceUnnoticed(acts, i, j, g, levels, scene);
    } else {
      ReplaceNoticed(acts, i, j, g, levels, scene);
    }
  }

  lemma SelfExact(acts: seq<Act>, i: nat, j: nat, g: Scope, levels: seq<LevelDecl>, scene: Scene)
    requires ScopeOk(g) && (CURR_LEVEL in g ==> g[CURR_LEVEL] == TVInt)
    requires TwoSets(acts, i, j, g, scene) && acts[j].what.args[1] == acts[j].what.args[0]
    ensures !Overwritten(acts, i, j)
    ensures NeverWorse(acts, Dropped(Replaced(acts, i), j), g, levels) <==> !Reachable(acts, i)
  {
    assert Target(acts[i].what) in ActReads(acts[j].what);
    var r := Replaced(acts, i);
    var less, b := Dropped(r, j), acts[i].(what := TRUE);
    if Reachable(acts, i) {
      SelfNoticed(acts, i, j, g, levels, scene);
    } else {
      Apart(acts, i, b);
      assert less[..i] == acts[..i] && less[i] == b;
      Apart(less, i, b);
      forall w: World, st, sig | w.levels == levels && StoreTyped(st, g)
        ensures Better(RunChain(w, acts, true, st, sig), RunChain(w, less, true, st, sig))
      {
        NotReached(w, acts[..i], acts[i], b, acts[i + 1..], less[i + 1..], st, sig);
      }
    }
  }
}
