// Chains of simple actions, and worlds that answer them as one likes: every
// sequence of outcomes that the actions allow is the outcome of a run.
module Scripted {
  import opened Wrappers
  import opened Types
  import opened Syntax
  import opened Semantics
  import opened TypeCheck
  import opened Soundness
  import opened Chain
  import opened ChainExact

  // ----- simple actions -----

  // A literal or a declared variable, of one of the given types.
  predicate Plain(e: Expr, g: Scope, ts: set<TypeVal>) {
    match e
    case Const(_, v) => ValueType(v) in ts
    case Var(x, dt) => x in g && x != CURR_LEVEL && dt == Type(g[x], TEExpr) && g[x] in ts
    case _ => false
  }

  const ANY := {TVInt, TVBool, TVString}

  // An action that can be seen from outside, and shows its arguments.
  predicate Loud(e: Expr, g: Scope) {
    && e.Call?
    && match e.fn
       case FTrue => forall a | a in e.args :: Plain(a, g, ANY)
       case FAlert => |e.args| == 1 && forall a | a in e.args :: Plain(a, g, {TVString})
       case FExec => |e.args| >= 1 && forall a | a in e.args :: Plain(a, g, {TVString})
       case _ => false
  }

  // An integer variable plus or minus a literal other than zero.
  predicate Shifted(e: Expr, g: Scope) {
    && e.Bin? && e.op in {OpAdd, OpSub} && e.left.Var? && Plain(e.left, g, {TVInt})
    && e.right.Const? && e.right.v.IntV? && e.right.v.i != 0
  }

  predicate PlainSet(e: Expr, g: Scope) {
    && IsSet(e) && |e.args| == 2 && Plain(e.args[0], g, ANY) && e.args[0].Var?
    && (Plain(e.args[1], g, {g[e.args[0].name]}) || (Shifted(e.args[1], g) && g[e.args[0].name] == TVInt))
  }

  predicate Simple(e: Expr, g: Scope) {
    e == TRUE || PlainSet(e, g) || Loud(e, g)
  }

  predicate AllSimple(acts: seq<Act>, g: Scope) {
    forall a | a in acts :: Simple(a.what, g)
  }

  predicate AllLoud(acts: seq<Act>, g: Scope) {
    forall a | a in acts :: Loud(a.what, g)
  }

  // ----- their effect, whatever the world -----

  function Val(e: Expr, st: St): Value {
    match e
    case Const(_, v) => v
    case Var(x, _) => if x in st.vars then st.vars[x] else UndefV
    case Bin(op, l, r, _) =>
      var a, b := Val(l, st), Val(r, st);
      if a.IntV? && b.IntV? then IntOp(a.i, b.i, op).v else UndefV
    case _ => UndefV
  }

  function Vals(es: seq<Expr>, st: St): (r: seq<Value>)
    ensures |r| == |es| && forall i | 0 <= i < |es| :: r[i] == Val(es[i], st)
  {
    if es == [] then [] else [Val(es[0], st)] + Vals(es[1..], st)
  }

  lemma {:induction false} PlainVals(w: World, es: seq<Expr>, st: St, sig: Sig, g: Scope)
    requires StoreTyped(st, g) && forall e | e in es :: Plain(e, g, ANY)
    ensures EvalAll(w, es, st, sig) == Oks(Vals(es, st), sig)
    decreases es
  {
    if es != [] {
      assert es[0] in es;
      PlainVals(w, es[1..], st, sig, g);
    }
  }

  lemma ShiftedVal(w: World, e: Expr, st: St, sig: Sig, g: Scope)
    requires StoreTyped(st, g) && Shifted(e, g)
    ensures Eval(w, e, st, sig) == Ok(Val(e, st), sig) && Val(e, st).IntV?
  {
    assert Eval(w, e.left, st, sig) == Ok(Val(e.left, st), sig);
    assert Eval(w, e.right, st, sig) == Ok(Val(e.right, st), sig);
  }

  function EventOf(e: Expr, st: St): Event
    requires e.Call?
  {
    var vs := Vals(e.args, st);
    match e.fn
    case FAlert => AlertEv(if vs == [] then "" else StrField(vs[0]))
    case FExec => if vs == [] then ExecEv("", []) else ExecEv(StrField(vs[0]), StrFields(vs[1..]))
    case _ => ShowEv(true, vs)
  }

  predicate Noisy(e: Expr) {
    e.Call? && e.fn != FSet
  }

  function Effect(e: Expr, st: St): St {
    if Noisy(e) then WithTrace(st, EventOf(e, st))
    else if IsSet(e) && |e.args| == 2 && e.args[0].Var? then
      st.(vars := st.vars[e.args[0].name := Val(e.args[1], st)])
    else st
  }

  predicate Succeeds(w: World, e: Expr, st: St) {
    e.Call? && e.fn == FExec && e.args != [] ==>
      w.exec(st.trace, StrField(Vals(e.args, st)[0]), StrFields(Vals(e.args, st)[1..]))
  }

  lemma SimpleAct(w: World, e: Expr, st: St, sig: Sig, g: Scope)
    requires StoreTyped(st, g) && Simple(e, g)
    ensures RunAct(w, e, st, sig) == ActOk(Succeeds(w, e, st), Effect(e, st), sig)
    ensures StoreTyped(Effect(e, st), g)
  {
    if Loud(e, g) {
      PlainVals(w, e.args, st, sig, g);
    } else if e != TRUE && Shifted(e.args[1], g) {
      ShiftedVal(w, e.args[1], st, sig, g);
    }
  }

  function EffectAll(acts: seq<Act>, st: St): St
    decreases acts
  {
    if acts == [] then st else EffectAll(acts[1..], Effect(acts[0].what, st))
  }

  lemma {:induction false} SimpleRun(w: World, acts: seq<Act>, st: St, sig: Sig, g: Scope)
    requires StoreTyped(st, g) && AllSimple(acts, g)
    ensures RunAll(w, acts, st, sig) == Done(EffectAll(acts, st), sig)
    decreases acts
  {
    if acts != [] {
      assert acts[0] in acts;
      SimpleAct(w, acts[0].what, st, sig, g);
      SimpleRun(w, acts[1..], Effect(acts[0].what, st), sig, g);
    }
  }

  lemma {:induction false} EffectConcat(a: seq<Act>, b: seq<Act>, st: St)
    ensures EffectAll(a + b, st) == EffectAll(b, EffectAll(a, st))
    decreases a
  {
    if a == [] {
      assert a + b == b;
    } else {
      assert (a + b)[0] == a[0] && (a + b)[1..] == a[1..] + b;
      EffectConcat(a[1..], b, Effect(a[0].what, st));
    }
  }

  // Loud actions only make the trace grow, by one event each.
  lemma {:induction false} LoudEffect(acts: seq<Act>, st: St, g: Scope)
    requires AllLoud(acts, g)
    ensures
      var st' := EffectAll(acts, st);
      && st'.vars == st.vars && st'.lvl == st.lvl
      && |st'.trace| == |st.trace| + |acts| && st'.trace[..|st.trace|] == st.trace
    decreases acts
  {
    if acts != [] {
      assert acts[0] in acts;
      LoudEffect(acts[1..], Effect(acts[0].what, st), g);
      assert EffectAll(acts, st).trace[..|st.trace| + 1][..|st.trace|] == st.trace;
    }
  }

  // ----- a world for every outcome -----

  // The outcomes of the actions that leave an event.
  function Answers(acts: seq<Act>, outs: seq<bool>): seq<bool>
    requires |acts| == |outs|
  {
    if acts == [] then []
    else (if Noisy(acts[0].what) then [outs[0]] else []) + Answers(acts[1..], outs[1..])
  }

  // What queries find: all that look at the robot answer the same, those with
  // a body of their own look at the message.
  datatype Scene = Scene(yes: bool, msg: MsgCtx)

  const NOWHERE := Scene(true, MsgCtx("", "", [], [], [], []))

  // A program run after n events gets the answer in its turn.
  function Script(levels: seq<LevelDecl>, scene: Scene, answers: seq<bool>, n: nat): World {
    World(levels, Some(scene.msg), (f, vs, tr) => Some(scene.yes),
          (tr, p, args) => n <= |tr| < n + |answers| && answers[|tr| - n],
          (tr, x, y) => false)
  }

  lemma NextAnswer(answers: seq<bool>, k: nat, acts: seq<Act>, outs: seq<bool>)
    requires acts != [] && |acts| == |outs| && k <= |answers| && Answers(acts, outs) <= answers[k..]
    ensures
      var k' := if Noisy(acts[0].what) then k + 1 else k;
      k' <= |answers| && (k' > k ==> answers[k] == outs[0]) && Answers(acts[1..], outs[1..]) <= answers[k'..]
  {
    if Noisy(acts[0].what) {
      var asked := Answers(acts, outs);
      assert asked[0] == outs[0] && asked[1..] == Answers(acts[1..], outs[1..]);
      assert answers[k..][0] == answers[k] && answers[k..][1..] == answers[k + 1..];
    }
  }

  lemma RespectsRest(acts: seq<Act>, outs: seq<bool>)
    requires acts != [] && Respects(SureOf(acts), outs)
    ensures Respects(SureOf(acts[1..]), outs[1..]) && (Sure(acts[0].what) ==> outs[0])
  {
    assert SureOf(acts)[0] == Sure(acts[0].what);
    assert forall i | 0 <= i < |acts| - 1 :: SureOf(acts)[i + 1] == SureOf(acts[1..])[i];
  }

  lemma ScriptedAct(
      levels: seq<LevelDecl>, scene: Scene, answers: seq<bool>, n: nat, e: Expr, ok: bool, st: St, sig: Sig, g: Scope)
    requires StoreTyped(st, g) && Simple(e, g) && (Sure(e) ==> ok)
    requires Noisy(e) ==> n <= |st.trace| < n + |answers| && answers[|st.trace| - n] == ok
    ensures RunAct(Script(levels, scene, answers, n), e, st, sig) == ActOk(ok, Effect(e, st), sig)
    ensures StoreTyped(Effect(e, st), g)
  {
    SimpleAct(Script(levels, scene, answers, n), e, st, sig, g);
  }

  lemma {:induction false} ScriptedOutcomes(
      levels: seq<LevelDecl>, scene: Scene, answers: seq<bool>, n: nat, acts: seq<Act>, outs: seq<bool>,
      st: St, sig: Sig, g: Scope)
    requires StoreTyped(st, g) && AllSimple(acts, g) && Respects(SureOf(acts), outs)
    requires n <= |st.trace| <= n + |answers| && Answers(acts, outs) <= answers[|st.trace| - n..]
    ensures Outcomes(Script(levels, scene, answers, n), acts, st, sig) == outs
    decreases acts
  {
    if acts != [] {
      hide RunAct, Answers, Respects;
      var a := acts[0].what;
      assert acts[0] in acts;
      RespectsRest(acts, outs);
      NextAnswer(answers, |st.trace| - n, acts, outs);
      ScriptedAct(levels, scene, answers, n, a, outs[0], st, sig, g);
      ScriptedOutcomes(levels, scene, answers, n, acts[1..], outs[1..], Effect(a, st), sig, g);
      assert outs == [outs[0]] + outs[1..];
    }
  }

  // Every sequence of outcomes in which the sure actions succeed is the
  // sequence of outcomes in some world.
  lemma EveryOutcome(levels: seq<LevelDecl>, acts: seq<Act>, outs: seq<bool>, st: St, sig: Sig, g: Scope)
    requires StoreTyped(st, g) && AllSimple(acts, g) && Respects(SureOf(acts), outs)
    ensures exists w: World :: w.levels == levels && Outcomes(w, acts, st, sig) == outs
  {
    var w := Script(levels, NOWHERE, Answers(acts, outs), |st.trace|);
    ScriptedOutcomes(levels, NOWHERE, Answers(acts, outs), |st.trace|, acts, outs, st, sig, g);
    assert w.levels == levels && Outcomes(w, acts, st, sig) == outs;
  }

  // And in that world the chain runs as far as the outcomes take it.
  lemma ScriptedRun(
      levels: seq<LevelDecl>, scene: Scene, answers: seq<bool>, acts: seq<Act>, outs: seq<bool>,
      st: St, sig: Sig, g: Scope)
    requires StoreTyped(st, g) && AllSimple(acts, g) && Respects(SureOf(acts), outs)
    requires Answers(acts, outs) <= answers
    ensures RunChain(Script(levels, scene, answers, |st.trace|), acts, true, st, sig)
         == Done(EffectAll(acts[..Ran(Cons(acts), outs, true)], st), sig)
  {
    var w := Script(levels, scene, answers, |st.trace|);
    ScriptedOutcomes(levels, scene, answers, |st.trace|, acts, outs, st, sig, g);
    SimpleRun(w, acts, st, sig, g);
    RunChainIsPrefix(w, acts, true, st, sig);
    SimpleRun(w, acts[..Ran(Cons(acts), outs, true)], st, sig, g);
  }

  // ----- the parts of a run -----

  // The first actions are all run exactly if the outcomes take the run past
  // them.
  lemma {:induction false} FrontRuns(w: World, before: seq<Act>, success: bool, st: St, sig: Sig, g: Scope)
    requires StoreTyped(st, g) && AllSimple(before, g)
    ensures
      var outs := Outcomes(w, before, st, sig);
      if Ran(Cons(before), outs, success) == |before| then
        RunFront(w, before, success, st, sig) == Here(Last(outs, success), EffectAll(before, st), sig)
      else RunFront(w, before, success, st, sig).Over?
    decreases before
  {
    if before != [] {
      var a := before[0].what;
      assert before[0] in before;
      SimpleAct(w, a, st, sig, g);
      var outs := Outcomes(w, before, st, sig);
      assert outs == [outs[0]] + Outcomes(w, before[1..], Effect(a, st), sig);
      assert Cons(before)[1..] == Cons(before[1..]);
      if before[1..] != [] { assert Last(outs, success) == Last(outs[1..], outs[0]); }
      FrontRuns(w, before[1..], outs[0], Effect(a, st), sig, g);
    }
  }

  // Simple actions take no signal.
  lemma {:induction false} SigPasses(
      w: World, acts: seq<Act>, success: bool, st: St, sig: Sig, sig': Sig, g: Scope)
    requires StoreTyped(st, g) && AllSimple(acts, g)
    ensures
      var r := RunChain(w, acts, success, st, sig);
      r.Done? && RunChain(w, acts, success, st, sig') == Done(r.st, sig')
    decreases acts
  {
    if acts != [] && Taken(acts[0].con, success) {
      assert acts[0] in acts;
      SimpleAct(w, acts[0].what, st, sig, g);
      SimpleAct(w, acts[0].what, st, sig', g);
      SigPasses(w, acts[1..], Succeeds(w, acts[0].what, st), Effect(acts[0].what, st), sig, sig', g);
    }
  }

  // Without a set all variables stay.
  lemma {:induction false} NoSetsKeepVars(
      w: World, acts: seq<Act>, success: bool, st: St, sig: Sig, g: Scope)
    requires StoreTyped(st, g) && AllSimple(acts, g) && forall a | a in acts :: !IsSet(a.what)
    ensures var r := RunChain(w, acts, success, st, sig); r.Done? && r.st.vars == st.vars
    decreases acts
  {
    if acts != [] && Taken(acts[0].con, success) {
      assert acts[0] in acts;
      SimpleAct(w, acts[0].what, st, sig, g);
      NoSetsKeepVars(w, acts[1..], Succeeds(w, acts[0].what, st), Effect(acts[0].what, st), sig, g);
    }
  }
}
