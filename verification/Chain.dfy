// One action of a chain at a time: what may be removed from a chain, folded
// in it or rewritten in it without changing what the chain does.
module Chain {
  import opened Syntax
  import opened Semantics
  import opened TypeCheck
  import opened Soundness
  import opened Fold

  const TRUE := Lit(BoolV(true))

  predicate IsSet(e: Expr) {
    e.Call? && e.fn == FSet
  }

  // A set call as the type checker lets it pass.
  predicate SetShaped(e: Expr) {
    IsSet(e) ==> |e.args| == 2 && e.args[0].Var?
  }

  function Target(e: Expr): string
    requires IsSet(e) && SetShaped(e)
  {
    e.args[0].name
  }

  predicate SameTarget(a: Expr, b: Expr) {
    IsSet(a) && IsSet(b) && SetShaped(a) && SetShaped(b) && Target(a) == Target(b)
  }

  // The actions the folder may remove.
  predicate Silent(e: Expr) {
    e == TRUE || IsSet(e)
  }

  // The actions that always report success.
  predicate Sure(e: Expr) {
    Silent(e) || (e.Call? && (e.fn == FAlert || e.fn == FTrue))
  }

  // The variables an action reads; the target of a set is not read.
  function ActReads(e: Expr): set<string> {
    if IsSet(e) && SetShaped(e) then Reads(e.args[1]) else Reads(e)
  }

  predicate ActReady(e: Expr, g: Scope, levels: seq<LevelDecl>) {
    e == TRUE || (ActSafe(e, g) && ReadyAll(e.args, g, levels))
  }

  // Nothing but a fault may change.
  predicate Better(r: RunRes, r': RunRes) {
    !r.Fail? ==> r' == r
  }

  lemma SureSucceeds(w: World, e: Expr, st: St, sig: Sig)
    requires Sure(e)
    ensures var r := RunAct(w, e, st, sig); r.ActOk? ==> r.success
  {
  }

  // ----- the parts of a chain -----

  function Skip(i: nat, p: nat): nat {
    if i < p then i else i + 1
  }

  function Without<T>(s: seq<T>, p: nat): (r: seq<T>)
    requires p < |s|
    ensures |r| == |s| - 1
    ensures forall k | 0 <= k < |r| :: r[k] == s[Skip(k, p)]
  {
    s[..p] + s[p + 1..]
  }

  // Where the run of the first actions of a chain leads: to the connector
  // after them, or to the end of the run.
  datatype Front = Here(success: bool, st: St, sig: Sig) | Over(r: RunRes)

  function RunFront(w: World, before: seq<Act>, success: bool, st: St, sig: Sig): Front
    decreases before
  {
    if before == [] then Here(success, st, sig)
    else if !Taken(before[0].con, success) then Over(Done(st, sig))
    else match RunAct(w, before[0].what, st, sig)
      case ActOk(ok, st', sig') => RunFront(w, before[1..], ok, st', sig')
      case ActStop(t) => Over(Stop(t))
      case ActFault(f) => Over(Fail(f))
  }

  function GoOn(w: World, f: Front, rest: seq<Act>): RunRes {
    if f.Here? then RunChain(w, rest, f.success, f.st, f.sig) else f.r
  }

  lemma {:induction false} FrontThenRest(w: World, before: seq<Act>, rest: seq<Act>, success: bool, st: St, sig: Sig)
    ensures RunChain(w, before + rest, success, st, sig) == GoOn(w, RunFront(w, before, success, st, sig), rest)
    decreases before
  {
    if before == [] {
      assert before + rest == rest;
    } else {
      assert (before + rest)[0] == before[0] && (before + rest)[1..] == before[1..] + rest;
      var r := RunAct(w, before[0].what, st, sig);
      if Taken(before[0].con, success) && r.ActOk? {
        FrontThenRest(w, before[1..], rest, r.success, r.st, r.sig);
      }
    }
  }

  // An action, the ones before it and the ones after it.
  lemma RunAround(w: World, before: seq<Act>, a: Act, after: seq<Act>, success: bool, st: St, sig: Sig)
    ensures RunChain(w, before + [a] + after, success, st, sig)
         == GoOn(w, RunFront(w, before, success, st, sig), [a] + after)
  {
    assert before + [a] + after == before + ([a] + after);
    FrontThenRest(w, before, [a] + after, success, st, sig);
  }

  function AfterAct(w: World, r: ActRes, rest: seq<Act>): RunRes {
    match r
    case ActOk(ok, st', sig') => RunChain(w, rest, ok, st', sig')
    case ActStop(t) => Stop(t)
    case ActFault(f) => Fail(f)
  }

  lemma RunFirst(w: World, a: Act, after: seq<Act>, success: bool, st: St, sig: Sig)
    ensures RunChain(w, [a] + after, success, st, sig) ==
      if Taken(a.con, success) then AfterAct(w, RunAct(w, a.what, st, sig), after) else Done(st, sig)
  {
    assert ([a] + after)[1..] == after;
  }

  predicate EndsSure(before: seq<Act>, success: bool) {
    if before == [] then success else Sure(before[|before| - 1].what)
  }

  lemma {:induction false} FrontSucceeds(w: World, before: seq<Act>, success: bool, st: St, sig: Sig)
    requires EndsSure(before, success)
    ensures var f := RunFront(w, before, success, st, sig); f.Here? ==> f.success
    decreases before
  {
    if before != [] {
      var r := RunAct(w, before[0].what, st, sig);
      if Taken(before[0].con, success) && r.ActOk? {
        FrontSucceeds(w, before[1..], r.success, r.st, r.sig);
      }
    }
  }

  // ----- removing a constant action -----

  // The connectors before and after a constant are the same, or nothing
  // follows it, or it is not reached after a failure.
  predicate Removes(w: World, before: seq<Act>, con: Con, after: seq<Act>, success: bool, st: St, sig: Sig) {
    || after == [] || after[0].con == con
    || var f := RunFront(w, before, success, st, sig); f.Here? ==> f.success
  }

  lemma RemoveAt(w: World, before: seq<Act>, con: Con, after: seq<Act>, success: bool, st: St, sig: Sig)
    requires con != NThen && Removes(w, before, con, after, success, st, sig)
    ensures RunChain(w, before + after, success, st, sig)
         == RunChain(w, before + [Act(con, TRUE)] + after, success, st, sig)
  {
    var f := RunFront(w, before, success, st, sig);
    FrontThenRest(w, before, after, success, st, sig);
    RunAround(w, before, Act(con, TRUE), after, success, st, sig);
    if f.Here? { RunFirst(w, Act(con, TRUE), after, f.success, f.st, f.sig); }
  }

  // The rest of a chain after a constant reached by "!>" is dropped whole.
  lemma TruncateAt(w: World, before: seq<Act>, after: seq<Act>, success: bool, st: St, sig: Sig)
    requires Removes(w, before, NThen, after, success, st, sig)
    ensures RunChain(w, before, success, st, sig)
         == RunChain(w, before + [Act(NThen, TRUE)] + after, success, st, sig)
  {
    var f := RunFront(w, before, success, st, sig);
    assert before + [] == before;
    FrontThenRest(w, before, [], success, st, sig);
    RunAround(w, before, Act(NThen, TRUE), after, success, st, sig);
    if f.Here? { RunFirst(w, Act(NThen, TRUE), after, f.success, f.st, f.sig); }
  }

  // In particular, when the action before always succeeds.
  lemma RemoveSound(w: World, before: seq<Act>, con: Con, after: seq<Act>, success: bool, st: St, sig: Sig)
    requires after == [] || after[0].con == con || EndsSure(before, success)
    ensures RunChain(w, if con == NThen then before else before + after, success, st, sig)
         == RunChain(w, before + [Act(con, TRUE)] + after, success, st, sig)
  {
    if EndsSure(before, success) { FrontSucceeds(w, before, success, st, sig); }
    if con == NThen {
      TruncateAt(w, before, after, success, st, sig);
    } else {
      RemoveAt(w, before, con, after, success, st, sig);
    }
  }

  // ----- folding an action in place -----

  lemma ActFoldSound(c: Compilers, w: World, e: Expr, st: St, sig: Sig, g: Scope)
    requires ActReady(e, g, w.levels) && StoreTyped(st, g) && ScopeOk(g)
    requires FoldExpr(c, e).errors == 0
    ensures
      var e' := FoldExpr(c, e).e;
      && (!RunAct(w, e, st, sig).ActFault? ==> RunAct(w, e', st, sig) == RunAct(w, e, st, sig))
      && ActReady(e', g, w.levels)
      && (Silent(e') <==> Silent(e)) && (Sure(e') <==> Sure(e)) && (IsConstant(e') ==> e' == TRUE)
      && (SameTarget(e', e) || e' == TRUE || !IsSet(e'))
      && ActReads(e') <= ActReads(e)
      && (IsSet(e') ==> Quiet(e.args[1]) ==> Quiet(e'.args[1]))
  {
    ActFoldShape(c, e, g, w.levels);
    if e != TRUE {
      var args := e.args;
      if e.fn == FSet && SameSymbol(args[0], args[1]) {
        SameArgs(e, g);
        SetItself(w, e, st, sig, g);
      } else if args != [] {
        FoldCallIsFoldArgs(c, e);
        FoldArgsSound(c, w, e.fn, args, st, sig, g);
        ActCallFoldSound(c, w, e, st, sig, g);
      }
    }
  }

  // What kind of action folding leaves.
  lemma ActFoldShape(c: Compilers, e: Expr, g: Scope, levels: seq<LevelDecl>)
    requires ActReady(e, g, levels)
    ensures
      var e' := FoldExpr(c, e).e;
      && (Silent(e') <==> Silent(e)) && (Sure(e') <==> Sure(e)) && (IsConstant(e') ==> e' == TRUE)
      && (SameTarget(e', e) || e' == TRUE || !IsSet(e'))
      && ActReads(e') <= ActReads(e)
      && (IsSet(e') ==> Quiet(e.args[1]) ==> Quiet(e'.args[1]))
  {
    if e != TRUE && e.fn == FSet {
      SetFoldShape(c, e, g);
    } else {
      FoldShrinks(c, e);
      if e != TRUE && e.args != [] { FoldCallIsFoldArgs(c, e); }
    }
  }

  lemma SetFoldShape(c: Compilers, e: Expr, g: Scope)
    requires ActSafe(e, g) && e.fn == FSet
    ensures
      var e' := FoldExpr(c, e).e;
      || e' == TRUE
      || (SameTarget(e', e) && ActReads(e') <= ActReads(e) && (Quiet(e.args[1]) ==> Quiet(e'.args[1])))
  {
    if !SameSymbol(e.args[0], e.args[1]) {
      FoldCallIsFoldArgs(c, e);
      FoldPair(c, e.args[0], e.args[1]);
      assert e.args == [e.args[0], e.args[1]];
      FoldShrinks(c, e.args[1]);
    }
  }

  lemma FoldCallIsFoldArgs(c: Compilers, e: Expr)
    requires e.Call? && IsAction(e.fn) && e.args != []
    requires !(e.fn == FSet && |e.args| >= 2 && SameSymbol(e.args[0], e.args[1]))
    ensures FoldExpr(c, e) ==
      Folded(FoldArgs(c, e.fn, e.args).errors, Call(e.fn, FoldArgs(c, e.fn, e.args).es, e.dt))
  {
  }

  lemma SameArgs(e: Expr, g: Scope)
    requires ActSafe(e, g) && e.fn == FSet && SameSymbol(e.args[0], e.args[1])
    ensures e.args[1] == e.args[0]
  {
    var args := e.args;
    assert args[1..] == [args[1]] && AnnotatedAll(args[1..], g);
    assert Annotated(args[0], g) && Annotated(args[1], g);
  }

  lemma SetItself(w: World, e: Expr, st: St, sig: Sig, g: Scope)
    requires ActSafe(e, g) && e.fn == FSet && e.args[1] == e.args[0] && StoreTyped(st, g)
    ensures RunAct(w, e, st, sig) == ActOk(true, st, sig)
  {
    assert Annotated(e.args[0], g);
    var x := e.args[0].name;
    assert st.vars[x := st.vars[x]] == st.vars;
  }

  lemma FoldPair(c: Compilers, x: Expr, e: Expr)
    requires x.Var? || x.Level?
    ensures FoldArgs(c, FSet, [x, e]).es == [x, FoldExpr(c, e).e]
    ensures FoldArgs(c, FSet, [x, e]).errors == FoldExpr(c, e).errors
    ensures FoldArgs(c, FTrigger, [x]) == FoldedAll(0, [x])
  {
    FoldTwo(c, x, e);
    assert [x][1..] == [];
    assert FoldAll(c, []) == FoldedAll(0, []);
  }

  // A root call, given what folding does to its arguments.
  lemma ActCallFoldSound(c: Compilers, w: World, e: Expr, st: St, sig: Sig, g: Scope)
    requires ActReady(e, g, w.levels) && e != TRUE && e.args != [] && StoreTyped(st, g) && ScopeOk(g)
    requires FoldArgs(c, e.fn, e.args).errors == 0
    requires
      var args' := FoldArgs(c, e.fn, e.args).es;
      && RefinesAll(EvalAll(w, e.args, st, sig), EvalAll(w, args', st, sig))
      && ReadyAll(args', g, w.levels) && ArgsTyped(SigOf(e.fn), args', 0, args')
    ensures
      var e' := Call(e.fn, FoldArgs(c, e.fn, e.args).es, e.dt);
      && (!RunAct(w, e, st, sig).ActFault? ==> RunAct(w, e', st, sig) == RunAct(w, e, st, sig))
      && ActReady(e', g, w.levels) && (IsSet(e') ==> SameTarget(e', e))
  {
    var f, args := e.fn, e.args;
    if f == FSet {
      SetCallSound(c, w, e, st, sig, g);
    } else if f == FTrigger {
      assert args == [args[0]];
      FoldPair(c, args[0], args[0]);
    }
  }

  lemma SetCallSound(c: Compilers, w: World, e: Expr, st: St, sig: Sig, g: Scope)
    requires ActReady(e, g, w.levels) && IsSet(e) && StoreTyped(st, g) && ScopeOk(g)
    requires FoldArgs(c, FSet, e.args).errors == 0
    requires
      var args' := FoldArgs(c, FSet, e.args).es;
      ReadyAll(args', g, w.levels) && ArgsTyped(SigOf(FSet), args', 0, args')
    ensures
      var e' := Call(FSet, FoldArgs(c, FSet, e.args).es, e.dt);
      && (!RunAct(w, e, st, sig).ActFault? ==> RunAct(w, e', st, sig) == RunAct(w, e, st, sig))
      && ActReady(e', g, w.levels) && (IsSet(e') ==> SameTarget(e', e))
  {
    var args := e.args;
    assert args == [args[0], args[1]];
    FoldPair(c, args[0], args[1]);
    SetFoldSound(c, w, e, st, sig, g);
  }

  lemma SetFoldSound(c: Compilers, w: World, e: Expr, st: St, sig: Sig, g: Scope)
    requires ActReady(e, g, w.levels) && IsSet(e) && StoreTyped(st, g) && ScopeOk(g)
    requires FoldExpr(c, e.args[1]).errors == 0
    ensures
      var e' := Call(FSet, [e.args[0], FoldExpr(c, e.args[1]).e], e.dt);
      && (!RunAct(w, e, st, sig).ActFault? ==> RunAct(w, e', st, sig) == RunAct(w, e, st, sig))
      && TypeOf(e'.args[1]) == TypeOf(e.args[1])
  {
    var args := e.args;
    assert args[1..] == [args[1]];
    assert AnnotatedAll(args[1..], g) && FoldableAll(args[1..], g, w.levels);
    assert Annotated(args[1], g) && Foldable(args[1], g, w.levels);
    assert ArgsTyped(SigOf(FSet), args, 1, args[1..]);
    FoldSound(c, w, args[1], st, sig, g);
  }
}
