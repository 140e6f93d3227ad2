// Expressions that ask for user signals (extern/expr.go Signal): worlds in
// which their evaluation gets to the question, and what it then takes.
module Asking {
  import opened Wrappers
  import opened Types
  import opened Syntax
  import opened Semantics
  import opened TypeCheck
  import opened Soundness
  import opened Overwrite
  import opened CleanSound
  import opened Scripted
  import Signals

  // A world that shows a scene to every query.
  ghost predicate Shows(w: World, scene: Scene) {
    w.msg == Some(scene.msg) && forall f, vs, tr :: w.query(f, vs, tr) == Some(scene.yes)
  }

  // The truth value that an expression has in a scene whatever the state, as
  // far as it can be read off.
  function Known(e: Expr, scene: Scene): Option<bool> {
    match e
    case Const(_, v) => if v.BoolV? then Some(v.b) else None
    case Call(f, args, _) => KnownCall(f, args, scene)
    case Un(op, r, _) =>
      var a := Known(r, scene);
      if op == OpLogNeg && a.Some? then Some(!a.value) else None
    case Bin(op, l, r, _) =>
      var a := Known(l, scene);
      if a.None? || (op != OpLogAnd && op != OpLogOr) then None
      else if a.value == (op == OpLogOr) then a
      else Known(r, scene)
    case _ => None
  }

  function KnownCall(f: Fn, args: seq<Expr>, scene: Scene): Option<bool> {
    if IsAction(f) || f in {FSignal, FLevelName, FString} then None
    else if !HasBody(f) then Some(scene.yes)
    else if !AllConst(args) || (f == FServicesInclude && args == []) then None
    else
      var vs := Vals(args, St(map[], 0, false, []));
      QueryBody(f, StrFields(vs), Script([], scene, [], 0), vs, [])
  }

  predicate AllConst(es: seq<Expr>) {
    es == [] || (es[0].Const? && AllConst(es[1..]))
  }

  // In the scene every call of signal is evaluated whenever the expression
  // is, and is given its name by a literal or by a variable.
  predicate Asks(e: Expr, scene: Scene) {
    match e
    case Call(f, args, _) =>
      (f == FSignal ==> |args| == 1 && (args[0].Const? || args[0].Var?)) && AsksAll(args, scene)
    case Bin(op, l, r, _) =>
      Asks(l, scene)
      && if op != OpLogOr && op != OpLogAnd then Asks(r, scene)
         else Quiet(r) || (Known(l, scene) == Some(op == OpLogAnd) && Asks(r, scene))
    case Un(_, r, _) => Asks(r, scene)
    case _ => true
  }

  predicate AsksAll(es: seq<Expr>, scene: Scene) {
    es == [] || (Asks(es[0], scene) && AsksAll(es[1..], scene))
  }

  // No division, and no call that reads an argument it was not given.
  predicate Total(e: Expr) {
    match e
    case Call(f, args, _) => (f == FServicesInclude ==> args != []) && TotalAll(args)
    case Bin(op, l, r, _) => op != OpDiv && op != OpMod && Total(l) && Total(r)
    case Un(_, r, _) => Total(r)
    case _ => true
  }

  predicate TotalAll(es: seq<Expr>) {
    es == [] || (Total(es[0]) && TotalAll(es[1..]))
  }

  // ----- nothing fails in a scene -----

  lemma {:induction false} TotalOk(w: World, scene: Scene, e: Expr, st: St, sig: Sig, g: Scope)
    requires ScopeOk(g) && StoreTyped(st, g) && Annotated(e, g) && TypeOf(e) != TVUndef
    requires Shows(w, scene) && Total(e)
    ensures Eval(w, e, st, sig).Ok?
    decreases e
  {
    match e
    case Call(f, args, dt) =>
      TotalAllOk(w, scene, SigOf(f), args, 0, args, st, sig, g);
      ReturnType(f);
      var rs := EvalAll(w, args, st, sig);
      AnsweredOk(w, scene, f, rs.vs, st, rs.sig);
    case Bin(op, l, r, dt) =>
      TotalOk(w, scene, l, st, sig, g);
      ValueTyped(w, l, st, sig, g);
      var a := Eval(w, l, st, sig);
      if !IsShort(op, a.v) {
        TotalOk(w, scene, r, st, a.sig, g);
        ValueTyped(w, r, st, a.sig, g);
        OpSound(a.v, Eval(w, r, st, a.sig).v, op);
      }
    case Un(op, r, dt) => TotalOk(w, scene, r, st, sig, g);
    case _ =>
  }

  lemma AnsweredOk(w: World, scene: Scene, f: Fn, vs: seq<Value>, st: St, sig: Sig)
    requires Shows(w, scene) && (f in {FSignal, FLevelName, FString, FServicesInclude} ==> vs != [])
    ensures CallFn(w, f, vs, st, sig).Ok?
  {
  }

  lemma {:induction false} TotalAllOk(
      w: World, scene: Scene, s: FnSig, args: seq<Expr>, i: nat, rest: seq<Expr>, st: St, sig: Sig, g: Scope)
    requires ScopeOk(g) && StoreTyped(st, g) && AnnotatedAll(rest, g) && Shows(w, scene) && TotalAll(rest)
    requires i <= |args| && rest == args[i..] && ArgsTyped(s, args, i, rest)
    ensures EvalAll(w, rest, st, sig).Oks?
    decreases rest
  {
    if rest != [] {
      TotalOk(w, scene, rest[0], st, sig, g);
      var a := Eval(w, rest[0], st, sig);
      TotalAllOk(w, scene, s, args, i + 1, rest[1..], st, a.sig, g);
    }
  }

  lemma TotalActOk(w: World, scene: Scene, e: Expr, st: St, sig: Sig, g: Scope)
    requires ScopeOk(g) && StoreTyped(st, g) && ActSafe(e, g) && Shows(w, scene) && TotalAll(e.args)
    ensures !RunAct(w, e, st, sig).ActFault?
  {
    var args := e.args;
    TotalAllOk(w, scene, SigOf(e.fn), args, 0, args, st, sig, g);
    if e.fn == FSet {
      TotalSetOk(w, scene, e, st, sig, g);
    } else if e.fn != FTrigger {
      ActionArity(e.fn);
    }
  }

  lemma TotalSetOk(w: World, scene: Scene, e: Expr, st: St, sig: Sig, g: Scope)
    requires ScopeOk(g) && StoreTyped(st, g) && ActSafe(e, g) && e.fn == FSet && Shows(w, scene) && Total(e.args[1])
    ensures Eval(w, e.args[1], st, sig).Ok? && ValueType(Eval(w, e.args[1], st, sig).v) == TypeOf(e.args[0])
  {
    var args := e.args;
    assert args == [args[0], args[1]] && args[1..] == [args[1]];
    assert AnnotatedAll(args[1..], g) && ArgsTyped(SigOf(FSet), args, 1, args[1..]);
    assert Annotated(args[1], g);
    TotalOk(w, scene, args[1], st, sig, g);
    ValueTyped(w, args[1], st, sig, g);
  }

  predicate TotalActs(acts: seq<Act>) {
    forall a | a in acts :: a.what.Call? && TotalAll(a.what.args)
  }

  lemma {:induction false} TotalChainOk(
      w: World, scene: Scene, acts: seq<Act>, success: bool, st: St, sig: Sig, g: Scope)
    requires ScopeOk(g) && StoreTyped(st, g) && Shows(w, scene)
    requires TotalActs(acts) && forall a | a in acts :: ActSafe(a.what, g)
    ensures !RunChain(w, acts, success, st, sig).Fail?
    decreases acts
  {
    if acts != [] && Taken(acts[0].con, success) {
      assert acts[0] in acts;
      TotalActOk(w, scene, acts[0].what, st, sig, g);
      ActSound(w, acts[0].what, st, sig, g);
      var r := RunAct(w, acts[0].what, st, sig);
      if r.ActOk? { TotalChainOk(w, scene, acts[1..], r.success, r.st, r.sig, g); }
    }
  }

  // ----- known values -----

  lemma {:induction false} ConstVals(w: World, es: seq<Expr>, st: St, sig: Sig)
    requires AllConst(es)
    ensures EvalAll(w, es, st, sig) == Oks(Vals(es, St(map[], 0, false, [])), sig)
    decreases es
  {
    if es != [] { ConstVals(w, es[1..], st, sig); }
  }

  lemma KnownCallValue(w: World, scene: Scene, f: Fn, args: seq<Expr>, dt: Type, st: St, sig: Sig)
    requires Shows(w, scene) && KnownCall(f, args, scene).Some?
    ensures var r := Eval(w, Call(f, args, dt), st, sig); r.Ok? ==> r.v == BoolV(KnownCall(f, args, scene).value)
  {
    if HasBody(f) { ConstVals(w, args, st, sig); }
  }

  lemma {:induction false} KnownValue(w: World, scene: Scene, e: Expr, st: St, sig: Sig)
    requires Shows(w, scene) && Known(e, scene).Some?
    ensures var r := Eval(w, e, st, sig); r.Ok? ==> r.v == BoolV(Known(e, scene).value)
    decreases e
  {
    match e
    case Call(f, args, dt) => KnownCallValue(w, scene, f, args, dt, st, sig);
    case Un(op, r, _) => KnownValue(w, scene, r, st, sig);
    case Bin(op, l, r, _) =>
      KnownValue(w, scene, l, st, sig);
      var a := Eval(w, l, st, sig);
      if a.Ok? && !IsShort(op, a.v) { KnownValue(w, scene, r, st, a.sig); }
    case _ =>
  }

  // ----- an expression that is not quiet takes a signal -----

  predicate Fewer(a: Sig, b: Sig) {
    a.usr1 + a.usr2 < b.usr1 + b.usr2
  }

  predicate NoMore(a: Sig, b: Sig) {
    a.usr1 <= b.usr1 && a.usr2 <= b.usr2
  }

  lemma EvalNoMore(w: World, e: Expr, st: St, sig: Sig)
    ensures var r := Eval(w, e, st, sig); r.Ok? ==> NoMore(r.sig, sig)
  {
    Signals.EvalConserved(w, e, st, sig);
  }

  lemma EvalAllNoMore(w: World, es: seq<Expr>, st: St, sig: Sig)
    ensures var r := EvalAll(w, es, st, sig); r.Oks? ==> NoMore(r.sig, sig)
  {
    Signals.EvalAllConserved(w, es, st, sig);
  }

  lemma CallNoMore(w: World, f: Fn, vs: seq<Value>, st: St, sig: Sig)
    ensures var r := CallFn(w, f, vs, st, sig); r.Ok? ==> NoMore(r.sig, sig)
  {
  }

  const BOTH := Sig(1, 1)

  const USR1 := "SIGUSR1"

  lemma AskTakes(w: World, args: seq<Expr>, g: Scope)
    requires ScopeOk(g) && (CURR_LEVEL in g ==> g[CURR_LEVEL] == TVInt)
    requires |args| == 1 && (args[0].Const? || args[0].Var?) && !NamesNoSignal(args)
    requires AnnotatedAll(args, g) && ArgsTyped(SigOf(FSignal), args, 0, args)
    ensures
      var rs := EvalAll(w, args, Filled(g, USR1), BOTH);
      rs.Oks? && Fewer(SignalStep(StrField(rs.vs[0]), BOTH).1, BOTH)
  {
  }

  lemma {:induction false} NotQuietTakes(w: World, scene: Scene, e: Expr, g: Scope)
    requires ScopeOk(g) && (CURR_LEVEL in g ==> g[CURR_LEVEL] == TVInt)
    requires Annotated(e, g) && TypeOf(e) != TVUndef && Shows(w, scene) && Asks(e, scene) && !Quiet(e)
    ensures var r := Eval(w, e, Filled(g, USR1), BOTH); r.Ok? ==> Fewer(r.sig, BOTH)
    decreases e
  {
    var st := Filled(g, USR1);
    match e
    case Call(f, args, _) =>
      var rs := EvalAll(w, args, st, BOTH);
      if !QuietAll(args) {
        NotQuietAllTake(w, scene, SigOf(f), args, 0, args, g);
        if rs.Oks? { CallNoMore(w, f, rs.vs, st, rs.sig); }
      } else {
        QuietAllNoEffect(w, args, st, BOTH);
        if rs.Oks? { AskTakes(w, args, g); }
      }
    case Bin(op, l, r, _) =>
      var a := Eval(w, l, st, BOTH);
      if a.Ok? {
        EvalNoMore(w, r, st, a.sig);
        if Quiet(l) {
          QuietNoEffect(w, l, st, BOTH);
          if Known(l, scene).Some? { KnownValue(w, scene, l, st, BOTH); }
          NotQuietTakes(w, scene, r, g);
        } else {
          NotQuietTakes(w, scene, l, g);
        }
      }
    case Un(_, r, _) => NotQuietTakes(w, scene, r, g);
  }

  lemma {:induction false} NotQuietAllTake(
      w: World, scene: Scene, s: FnSig, args: seq<Expr>, i: nat, rest: seq<Expr>, g: Scope)
    requires ScopeOk(g) && (CURR_LEVEL in g ==> g[CURR_LEVEL] == TVInt)
    requires AnnotatedAll(rest, g) && Shows(w, scene) && AsksAll(rest, scene) && !QuietAll(rest)
    requires i <= |args| && rest == args[i..] && ArgsTyped(s, args, i, rest)
    ensures var r := EvalAll(w, rest, Filled(g, USR1), BOTH); r.Oks? ==> Fewer(r.sig, BOTH)
    decreases rest
  {
    var st := Filled(g, USR1);
    var a := Eval(w, rest[0], st, BOTH);
    if a.Ok? {
      EvalAllNoMore(w, rest[1..], st, a.sig);
      if Quiet(rest[0]) {
        QuietNoEffect(w, rest[0], st, BOTH);
        NotQuietAllTake(w, scene, s, args, i + 1, rest[1..], g);
      } else {
        NotQuietTakes(w, scene, rest[0], g);
      }
    }
  }

  // ----- what an evaluation does not depend on -----

  // The same variables, but for one, and the same level.
  predicate Alike(s: St, t: St, v: string) {
    s.lvl == t.lvl && s.vars.Keys == t.vars.Keys && forall x | x in s.vars && x != v :: s.vars[x] == t.vars[x]
  }

  // In a scene no answer depends on the trace.
  lemma {:induction false} EvalAlike(w: World, scene: Scene, e: Expr, s: St, t: St, v: string, sig: Sig)
    requires Shows(w, scene) && Alike(s, t, v) && v !in Reads(e)
    ensures Eval(w, e, s, sig) == Eval(w, e, t, sig)
    decreases e
  {
    match e
    case Call(f, args, _) => EvalAllAlike(w, scene, args, s, t, v, sig);
    case Bin(op, l, r, _) =>
      EvalAlike(w, scene, l, s, t, v, sig);
      var a := Eval(w, l, s, sig);
      if a.Ok? { EvalAlike(w, scene, r, s, t, v, a.sig); }
    case Un(op, r, _) => EvalAlike(w, scene, r, s, t, v, sig);
    case _ =>
  }

  lemma {:induction false} EvalAllAlike(w: World, scene: Scene, es: seq<Expr>, s: St, t: St, v: string, sig: Sig)
    requires Shows(w, scene) && Alike(s, t, v) && v !in ReadsAll(es)
    ensures EvalAll(w, es, s, sig) == EvalAll(w, es, t, sig)
    decreases es
  {
    if es != [] {
      EvalAlike(w, scene, es[0], s, t, v, sig);
      var a := Eval(w, es[0], s, sig);
      if a.Ok? { EvalAllAlike(w, scene, es[1..], s, t, v, a.sig); }
    }
  }
}
