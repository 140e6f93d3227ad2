// Exactly when the cleanup of a chain (tree/const.go) can not be told from
// the outside, for chains of actions that can be: runs in every world.
module CleanExact {
  import opened Types
  import opened Syntax
  import opened Semantics
  import opened TypeCheck
  import opened Soundness
  import opened Fold
  import opened Chain
  import opened ChainFold
  import opened ChainExact
  import opened CleanSound
  import opened Scripted

  // From any typed store, in any world, the two chains do the same.
  ghost predicate SameRuns(a: seq<Act>, b: seq<Act>, g: Scope, levels: seq<LevelDecl>) {
    forall w: World, st, sig | w.levels == levels && StoreTyped(st, g) ::
      RunChain(w, a, true, st, sig) == RunChain(w, b, true, st, sig)
  }

  // The outcomes that can precede action p, when all before it have run.
  function Arrivals(acts: seq<Act>, p: nat): set<bool>
    requires p <= |acts|
  {
    Ends(Cons(acts[..p]), SureOf(acts[..p]), {true})
  }

  lemma ConsUpTo(acts: seq<Act>, p: nat)
    requires p <= |acts|
    ensures Cons(acts[..p]) == Cons(acts)[..p] && SureOf(acts[..p]) == SureOf(acts)[..p]
  {
  }

  // Every run that gets past the first actions of a chain does so with one
  // of the outcomes computed.
  lemma {:induction false} FrontEnds(w: World, before: seq<Act>, success: bool, st: St, sig: Sig, oks: set<bool>)
    requires success in oks
    ensures
      var f := RunFront(w, before, success, st, sig);
      f.Here? ==> f.success in Ends(Cons(before), SureOf(before), oks)
    decreases before
  {
    if before != [] && Taken(before[0].con, success) {
      var r := RunAct(w, before[0].what, st, sig);
      if r.ActOk? {
        if Sure(before[0].what) { SureSucceeds(w, before[0].what, st, sig); }
        assert SureOf(before)[1..] == SureOf(before[1..]) && Cons(before)[1..] == Cons(before[1..]);
        FrontEnds(w, before[1..], r.success, r.st, r.sig, if Sure(before[0].what) then {true} else {true, false});
      }
    }
  }

  // ----- a constant among actions that can be seen -----

  // A constant, or a set that the folder turns into one at once.
  predicate Idle(e: Expr, g: Scope) {
    e == TRUE || (PlainSet(e, g) && e.args[1] == e.args[0])
  }

  predicate OneIdle(acts: seq<Act>, p: nat, g: Scope) {
    && p < |acts| && Idle(acts[p].what, g)
    && forall i | 0 <= i < |acts| && i != p :: Loud(acts[i].what, g)
  }

  // Taking out the constant at p goes unnoticed.
  predicate Unnoticed(acts: seq<Act>, p: nat)
    requires p < |acts|
  {
    p + 1 == |acts| || acts[p].con == acts[p + 1].con || false !in Arrivals(acts, p)
  }

  lemma IdleDoesNothing(w: World, e: Expr, st: St, sig: Sig, g: Scope)
    requires Idle(e, g) && StoreTyped(st, g)
    ensures RunAct(w, e, st, sig) == ActOk(true, st, sig) && Effect(e, st) == st
  {
    SimpleAct(w, e, st, sig, g);
    if e != TRUE { assert st.vars[e.args[0].name := st.vars[e.args[0].name]] == st.vars; }
  }

  // The chain with a constant in place of the idle set.
  lemma IdleIsTrue(w: World, before: seq<Act>, a: Act, after: seq<Act>, st: St, sig: Sig, g: Scope)
    requires Idle(a.what, g) && StoreTyped(st, g) && AllSimple(before, g)
    ensures RunChain(w, before + [a] + after, true, st, sig)
         == RunChain(w, before + [Act(a.con, TRUE)] + after, true, st, sig)
  {
    var f := RunFront(w, before, true, st, sig);
    RunAround(w, before, a, after, true, st, sig);
    RunAround(w, before, Act(a.con, TRUE), after, true, st, sig);
    if f.Here? {
      SimpleFrontTyped(w, before, true, st, sig, g);
      IdleDoesNothing(w, a.what, f.st, f.sig, g);
      IdleDoesNothing(w, TRUE, f.st, f.sig, g);
      RunFirst(w, a, after, f.success, f.st, f.sig);
      RunFirst(w, Act(a.con, TRUE), after, f.success, f.st, f.sig);
    }
  }

  lemma {:induction false} SimpleFrontTyped(w: World, before: seq<Act>, success: bool, st: St, sig: Sig, g: Scope)
    requires StoreTyped(st, g) && AllSimple(before, g)
    ensures var f := RunFront(w, before, success, st, sig); f.Here? ==> StoreTyped(f.st, g)
    decreases before
  {
    if before != [] && Taken(before[0].con, success) {
      assert before[0] in before;
      SimpleAct(w, before[0].what, st, sig, g);
      var r := RunAct(w, before[0].what, st, sig);
      SimpleFrontTyped(w, before[1..], r.success, r.st, r.sig, g);
    }
  }

  lemma DropUnnoticed(acts: seq<Act>, p: nat, g: Scope, levels: seq<LevelDecl>)
    requires OneIdle(acts, p, g) && Unnoticed(acts, p)
    ensures SameRuns(acts, Dropped(acts, p), g, levels)
  {
    var before, a, after := acts[..p], acts[p], acts[p + 1..];
    Apart(acts, p, a);
    forall w: World, st, sig | w.levels == levels && StoreTyped(st, g)
      ensures RunChain(w, acts, true, st, sig) == RunChain(w, Dropped(acts, p), true, st, sig)
    {
      IdleIsTrue(w, before, a, after, st, sig, g);
      FrontEnds(w, before, true, st, sig, {true});
      if a.con == NThen {
        TruncateAt(w, before, after, true, st, sig);
      } else {
        RemoveAt(w, before, a.con, after, true, st, sig);
      }
    }
  }

  // ----- the outcomes that give it away -----

  lemma AnswersWithout(acts: seq<Act>, outs: seq<bool>, p: nat)
    requires p < |acts| == |outs| && !Noisy(acts[p].what)
    ensures Answers(Without(acts, p), Without(outs, p)) == Answers(acts, outs)
  {
    if p == 0 {
      assert Without(acts, p) == acts[1..] && Without(outs, p) == outs[1..];
    } else {
      assert Without(acts, p)[1..] == Without(acts[1..], p - 1) && Without(outs, p)[1..] == Without(outs[1..], p - 1);
      AnswersWithout(acts[1..], outs[1..], p - 1);
    }
  }

  lemma {:induction false} AnswersUpTo(acts: seq<Act>, outs: seq<bool>, p: nat)
    requires p <= |acts| == |outs|
    ensures Answers(acts[..p], outs[..p]) <= Answers(acts, outs)
    decreases p
  {
    if p > 0 {
      assert acts[..p][1..] == acts[1..][..p - 1] && outs[..p][1..] == outs[1..][..p - 1];
      AnswersUpTo(acts[1..], outs[1..], p - 1);
    }
  }

  // How many events a run of the first n actions leaves.
  lemma IdleTrace(acts: seq<Act>, p: nat, n: nat, st: St, g: Scope)
    requires OneIdle(acts, p, g) && n <= |acts| && StoreTyped(st, g)
    ensures |EffectAll(acts[..n], st).trace| == |st.trace| + Others(n, p)
  {
    if n <= p {
      assert AllLoud(acts[..n], g);
      LoudEffect(acts[..n], st, g);
    } else {
      var before, after := acts[..p], acts[p + 1..n];
      assert acts[..n] == before + ([acts[p]] + after);
      assert ([acts[p]] + after)[1..] == after;
      EffectConcat(before, [acts[p]] + after, st);
      LoudEffect(before, st, g);
      var st1 := EffectAll(before, st);
      IdleKeeps(acts[p].what, st1, g);
      LoudEffect(after, Effect(acts[p].what, st1), g);
    }
  }

  lemma IdleKeeps(e: Expr, st: St, g: Scope)
    requires Idle(e, g)
    ensures Effect(e, st).trace == st.trace
  {
  }

  lemma RespectsWithout(sure: seq<bool>, outs: seq<bool>, p: nat)
    requires p < |sure| && Respects(sure, outs)
    ensures Respects(Without(sure, p), Without(outs, p)) && Respects(sure[..p], outs[..p])
  {
  }

  lemma ConsWithout(acts: seq<Act>, p: nat)
    requires p < |acts|
    ensures Cons(Without(acts, p)) == Without(Cons(acts), p) && SureOf(Without(acts, p)) == Without(SureOf(acts), p)
  {
  }

  lemma RestIsLoud(acts: seq<Act>, p: nat, g: Scope)
    requires OneIdle(acts, p, g)
    ensures AllLoud(Without(acts, p), g) && AllLoud(acts[..p], g) && AllLoud(acts[p + 1..], g) && AllSimple(acts, g)
  {
    forall a | a in acts ensures Simple(a.what, g) { var i :| 0 <= i < |acts| && acts[i] == a; }
    assert forall i | 0 <= i < |acts| - 1 :: Loud(Without(acts, p)[i].what, g);
  }

  lemma RemoveNoticed(acts: seq<Act>, p: nat, st: St, sig: Sig, g: Scope, levels: seq<LevelDecl>)
    requires OneIdle(acts, p, g) && !Unnoticed(acts, p) && acts[p].con != NThen && StoreTyped(st, g)
    ensures exists w: World ::
      w.levels == levels && RunChain(w, acts, true, st, sig) != RunChain(w, Without(acts, p), true, st, sig)
  {
    var less := Without(acts, p);
    ConsUpTo(acts, p);
    ConsWithout(acts, p);
    RestIsLoud(acts, p, g);
    var outs := RemoveVisible(Cons(acts), SureOf(acts), p);
    RespectsWithout(SureOf(acts), outs, p);
    AnswersWithout(acts, outs, p);
    var w := Script(levels, NOWHERE, Answers(acts, outs), |st.trace|);
    ScriptedRun(levels, NOWHERE, Answers(acts, outs), acts, outs, st, sig, g);
    ScriptedRun(levels, NOWHERE, Answers(acts, outs), less, Without(outs, p), st, sig, g);
    IdleTrace(acts, p, Ran(Cons(acts), outs, true), st, g);
    LoudEffect(less[..Ran(Cons(less), Without(outs, p), true)], st, g);
    assert w.levels == levels && RunChain(w, acts, true, st, sig) != RunChain(w, less, true, st, sig);
  }

  lemma CutNoticed(acts: seq<Act>, p: nat, st: St, sig: Sig, g: Scope, levels: seq<LevelDecl>)
    requires OneIdle(acts, p, g) && !Unnoticed(acts, p) && acts[p].con == NThen && StoreTyped(st, g)
    ensures exists w: World ::
      w.levels == levels && RunChain(w, acts, true, st, sig) != RunChain(w, acts[..p], true, st, sig)
  {
    var less := acts[..p];
    ConsUpTo(acts, p);
    RestIsLoud(acts, p, g);
    var outs := CutVisible(Cons(acts), SureOf(acts), p);
    RespectsWithout(SureOf(acts), outs, p);
    AnswersUpTo(acts, outs, p);
    var w := Script(levels, NOWHERE, Answers(acts, outs), |st.trace|);
    ScriptedRun(levels, NOWHERE, Answers(acts, outs), acts, outs, st, sig, g);
    ScriptedRun(levels, NOWHERE, Answers(acts, outs), less, outs[..p], st, sig, g);
    IdleTrace(acts, p, Ran(Cons(acts), outs, true), st, g);
    LoudEffect(less[..Ran(Cons(less), outs[..p], true)], st, g);
    assert w.levels == levels && RunChain(w, acts, true, st, sig) != RunChain(w, less, true, st, sig);
  }

  // ----- what the cleanup does to such a chain -----

  lemma {:induction false} PlainFixed(c: Compilers, es: seq<Expr>, g: Scope)
    requires forall e | e in es :: Plain(e, g, ANY)
    ensures FoldAll(c, es) == FoldedAll(0, es)
    decreases |es|
  {
    if es != [] {
      assert es[0] in es;
      PlainFixed(c, es[1..], g);
    }
  }

  lemma LoudFixed(c: Compilers, e: Expr, g: Scope)
    requires Loud(e, g)
    ensures FoldExpr(c, e) == Folded(0, e) && Root(e)
  {
    PlainFixed(c, e.args, g);
  }

  // A pass over loud actions keeps them.
  lemma {:induction false} PassLoud(
      c: Compilers, before: seq<Act>, rest: seq<Act>, kept: seq<Act>, slots: map<string, Slot>, g: Scope)
    requires AllLoud(before, g) && Roots(rest) && SlotsOk(kept, slots)
    ensures Roots(before + rest) && SlotsOk(kept + before, slots)
    ensures Pass(c, before + rest, kept, slots) == Pass(c, rest, kept + before, slots)
    decreases before
  {
    if before == [] {
      assert before + rest == rest && kept + before == kept;
    } else {
      var a := before[0];
      assert a in before;
      LoudFixed(c, a.what, g);
      assert (before + rest)[0] == a && (before + rest)[1..] == before[1..] + rest;
      assert kept + [a] + before[1..] == kept + before;
      PassLoud(c, before[1..], rest, kept + [a], slots, g);
    }
  }

  lemma PassAllLoud(c: Compilers, acts: seq<Act>, kept: seq<Act>, slots: map<string, Slot>, g: Scope)
    requires AllLoud(acts, g) && SlotsOk(kept, slots)
    ensures Roots(acts) && Pass(c, acts, kept, slots) == Cleaned(kept + acts, false, 0)
  {
    assert acts + [] == acts;
    PassLoud(c, acts, [], kept, slots, g);
  }

  lemma PassIdle(c: Compilers, a: Act, after: seq<Act>, kept: seq<Act>, g: Scope)
    requires Idle(a.what, g) && AllLoud(after, g)
    ensures Roots([a] + after)
    ensures Pass(c, [a] + after, kept, map[]) == Cleaned(if a.con == NThen then kept else kept + after, true, 0)
  {
    var none: map<string, Slot> := map[];
    assert ([a] + after)[0] == a && ([a] + after)[1..] == after;
    assert FoldExpr(c, a.what) == Folded(0, TRUE);
    PassAllLoud(c, after, kept, Forget(a.what, kept, LookUp(a.what, kept, none).slots), g);
  }

  lemma PassOneIdle(c: Compilers, acts: seq<Act>, p: nat, g: Scope)
    requires OneIdle(acts, p, g)
    ensures Roots(acts) && Pass(c, acts, [], map[]) == Cleaned(Dropped(acts, p), true, 0)
  {
    var none: map<string, Slot> := map[];
    var before, after := acts[..p], acts[p + 1..];
    RestIsLoud(acts, p, g);
    Apart(acts, p, acts[p]);
    assert acts == before + ([acts[p]] + after) && [] + before == before;
    PassIdle(c, acts[p], after, before, g);
    PassLoud(c, before, [acts[p]] + after, [], none, g);
  }

  lemma CleanOneIdle(c: Compilers, acts: seq<Act>, p: nat, g: Scope)
    requires OneIdle(acts, p, g)
    ensures Roots(acts) && CleanChain(c, acts) == Cleaned(Dropped(acts, p), true, 0)
  {
    PassOneIdle(c, acts, p, g);
    RestIsLoud(acts, p, g);
    var less := Dropped(acts, p);
    assert [] + less == less;
    PassAllLoud(c, less, [], map[], g);
  }

  // The cleanup takes a constant out of a chain of loud actions, alone or,
  // after "!>", with all that follows.  The runs stay the same in every world
  // exactly when the constant is last, or has the same connector before and
  // after it, or can not be reached after a failure.
  lemma ConstantExact(c: Compilers, acts: seq<Act>, p: nat, g: Scope, levels: seq<LevelDecl>)
    requires OneIdle(acts, p, g) && ScopeOk(g) && (CURR_LEVEL in g ==> g[CURR_LEVEL] == TVInt)
    ensures Roots(acts)
    ensures SameRuns(acts, CleanChain(c, acts).acts, g, levels) <==> Unnoticed(acts, p)
  {
    CleanOneIdle(c, acts, p, g);
    var st, sig := Filled(g, ""), Sig(0, 0);
    if Unnoticed(acts, p) {
      DropUnnoticed(acts, p, g, levels);
    } else if acts[p].con == NThen {
      CutNoticed(acts, p, st, sig, g, levels);
    } else {
      RemoveNoticed(acts, p, st, sig, g, levels);
    }
  }
}
