// What constant folding achieves (tree/const.go): expressions without
// variables and calls become their values, divisions by such a zero are
// reported and nothing else is, and nothing is left that could be folded.
module FoldComplete {
  import opened Types
  import opened Syntax
  import opened Semantics
  import opened TypeCheck
  import opened Fold
  import opened Chain
  import opened ChainFold
  import opened ProgFold

  // ----- closed expressions become their values -----

  // Literals and levels under operators, string and, for a level, levelname.
  predicate Closed(e: Expr, levels: seq<LevelDecl>)
    decreases e
  {
    match e
    case Const(_, v) => !v.UndefV?
    case Level(_, _) => true
    case Bin(_, l, r, _) => Closed(l, levels) && Closed(r, levels)
    case Un(op, r, _) => op in {OpAdd, OpSub, OpCompl, OpLogNeg} && Closed(r, levels)
    case Call(f, args, _) =>
      |args| == 1 && (if f == FString then Closed(args[0], levels) else f == FLevelName && IsLevelOf(args[0], levels))
    case _ => false
  }

  predicate IsLevelOf(e: Expr, levels: seq<LevelDecl>) {
    e.Level? && 0 <= e.idx < |levels| && levels[e.idx].name == e.name
  }

  // e is the constant v.
  predicate IsValue(e: Expr, v: Value) {
    (e.Const? && e.v == v) || (e.Level? && v == IntV(e.idx))
  }

  // Folded to a constant of type t, and to the value it has if it has one.
  predicate FoldedRight(r: Res, sig: Sig, e: Expr, t: TypeVal) {
    && (e.Const? || e.Level?) && TypeOf(e) == t
    && (r.Ok? ==> r.sig == sig && IsValue(e, r.v))
  }

  lemma {:induction false} ClosedFolds(c: Compilers, w: World, e: Expr, st: St, sig: Sig)
    requires Closed(e, w.levels) && TypeOf(e) != TVUndef
    ensures FoldedRight(Eval(w, e, st, sig), sig, FoldExpr(c, e).e, TypeOf(e))
    decreases e
  {
    hide FoldedRight, FoldBinary, FoldUnary;
    match e
    case Bin(op, l, r, dt) =>
      ClosedFolds(c, w, l, st, sig);
      ClosedFolds(c, w, r, st, sig);
      ClosedBin(w, op, l, r, FoldExpr(c, l).e, FoldExpr(c, r).e, dt, st, sig);
    case Un(op, r, dt) =>
      ClosedFolds(c, w, r, st, sig);
      ClosedUn(w, op, r, FoldExpr(c, r).e, dt, st, sig);
    case Call(f, args, dt) =>
      FirstTyped(f, args, dt);
      if f == FString { ClosedFolds(c, w, args[0], st, sig); } else { LevelItself(c, w, args[0], st, sig); }
      ClosedCall(c, w, f, args, dt, st, sig);
    case _ => LeafItself(c, w, e, st, sig);
  }

  lemma LeafItself(c: Compilers, w: World, e: Expr, st: St, sig: Sig)
    requires e.Const? || e.Level?
    ensures FoldedRight(Eval(w, e, st, sig), sig, FoldExpr(c, e).e, TypeOf(e))
  {
  }

  lemma ClosedUn(w: World, op: Op, r: Expr, r': Expr, dt: Type, st: St, sig: Sig)
    requires op in {OpAdd, OpSub, OpCompl, OpLogNeg} && TypeOf(Un(op, r, dt)) != TVUndef
    requires FoldedRight(Eval(w, r, st, sig), sig, r', TypeOf(r))
    ensures FoldedRight(Eval(w, Un(op, r, dt), st, sig), sig, FoldUnary(op, r', dt), TypeOf(Un(op, r, dt)))
  {
    UnConstSound(op, r');
  }

  lemma ClosedBin(w: World, op: Op, l: Expr, r: Expr, l': Expr, r': Expr, dt: Type, st: St, sig: Sig)
    requires TypeOf(Bin(op, l, r, dt)) != TVUndef
    requires FoldedRight(Eval(w, l, st, sig), sig, l', TypeOf(l))
    requires FoldedRight(Eval(w, r, st, sig), sig, r', TypeOf(r))
    ensures FoldedRight(Eval(w, Bin(op, l, r, dt), st, sig), sig, FoldBinary(op, l', r', dt), TypeOf(Bin(op, l, r, dt)))
  {
    hide BinExpr;
    BinCongruence(w, op, l, r, l', r', dt, st, sig);
    FoldConstantsSound(w, op, l', r', dt, st, sig);
  }

  lemma FirstTyped(f: Fn, args: seq<Expr>, dt: Type)
    requires |args| == 1 && TypeOf(Call(f, args, dt)) != TVUndef
    ensures TypeOf(args[0]) != TVUndef && TypeOf(Call(f, args, dt)) == SigOf(f).ret.tval
  {
    assert ArgsTyped(SigOf(f), args, 0, args);
  }

  lemma FoldOne(c: Compilers, f: Fn, a: Expr, dt: Type)
    requires f == FString || f == FLevelName
    ensures FoldExpr(c, Call(f, [a], dt)).e == FoldCall(f, [FoldExpr(c, a).e], dt)
  {
    assert [a][1..] == [];
    assert FoldAll(c, [a]) == FoldedAll(FoldExpr(c, a).errors, [FoldExpr(c, a).e]);
  }

  lemma EvalOne(w: World, f: Fn, a: Expr, dt: Type, st: St, sig: Sig)
    requires !IsAction(f)
    ensures
      var v := Eval(w, a, st, sig);
      Eval(w, Call(f, [a], dt), st, sig) == if v.Err? then v else CallFn(w, f, [v.v], st, v.sig)
  {
    hide CallFn;
    assert [a][1..] == [];
    var v := Eval(w, a, st, sig);
    assert EvalAll(w, [a], st, sig) == if v.Err? then Errs(v.fault) else Oks([v.v], v.sig);
  }

  lemma ClosedCall(c: Compilers, w: World, f: Fn, args: seq<Expr>, dt: Type, st: St, sig: Sig)
    requires |args| == 1 && (f == FString || (f == FLevelName && IsLevelOf(args[0], w.levels)))
    requires FoldedRight(Eval(w, args[0], st, sig), sig, FoldExpr(c, args[0]).e, TypeOf(args[0]))
    ensures FoldedRight(Eval(w, Call(f, args, dt), st, sig), sig, FoldExpr(c, Call(f, args, dt)).e, TVString)
  {
    hide FoldExpr, Eval;
    var a := args[0];
    assert args == [a];
    FoldOne(c, f, a, dt);
    EvalOne(w, f, a, dt, st, sig);
    if f == FLevelName { LevelItself(c, w, a, st, sig); }
  }

  lemma LevelItself(c: Compilers, w: World, a: Expr, st: St, sig: Sig)
    requires a.Level?
    ensures FoldExpr(c, a).e == a && Eval(w, a, st, sig) == Ok(IntV(a.idx), sig)
    ensures FoldedRight(Eval(w, a, st, sig), sig, FoldExpr(c, a).e, TypeOf(a))
  {
  }

  // ----- the errors are the divisions by zero -----

  const NOTHING := St(map[], 0, false, [])

  // A closed divisor that is zero; if asked for, also one that has no value.
  predicate ByZero(w: World, r: Expr, faulty: bool) {
    Closed(r, w.levels) && TypeOf(r) != TVUndef &&
    var v := Eval(w, r, NOTHING, Sig(0, 0));
    if v.Ok? then v.v == IntV(0) else faulty
  }

  predicate DividesByZero(w: World, op: Op, r: Expr, dt: Type, faulty: bool) {
    op == OpDiv && dt.tval == TVInt && ByZero(w, r, faulty)
  }

  function ZeroDivs(w: World, e: Expr, faulty: bool): nat
    decreases e
  {
    match e
    case Call(_, args, _) => ZeroDivsAll(w, args, faulty)
    case Bin(op, l, r, dt) =>
      ZeroDivs(w, l, faulty) + ZeroDivs(w, r, faulty) + if DividesByZero(w, op, r, dt, faulty) then 1 else 0
    case Un(_, r, _) => ZeroDivs(w, r, faulty)
    case _ => 0
  }

  function ZeroDivsAll(w: World, es: seq<Expr>, faulty: bool): nat
    decreases es
  {
    if es == [] then 0 else ZeroDivs(w, es[0], faulty) + ZeroDivsAll(w, es[1..], faulty)
  }

  // An integer expression that folds to a constant is closed.
  lemma {:induction false} ConstantClosed(c: Compilers, e: Expr, g: Scope, levels: seq<LevelDecl>)
    requires Annotated(e, g) && TypeOf(e) == TVInt && IsConstant(FoldExpr(c, e).e)
    ensures Closed(e, levels)
    decreases e
  {
    match e
    case Bin(op, l, r, dt) =>
      OperandsConstant(op, FoldExpr(c, l).e, FoldExpr(c, r).e, dt);
      ConstantClosed(c, l, g, levels);
      ConstantClosed(c, r, g, levels);
    case Un(op, r, dt) => ConstantClosed(c, r, g, levels);
    case _ =>
  }

  // But for && and ||, == and !=, only two constants make a constant.
  lemma OperandsConstant(op: Op, l: Expr, r: Expr, dt: Type)
    requires op !in {OpLogAnd, OpLogOr, OpEq, OpNEq} && IsConstant(FoldBinary(op, l, r, dt))
    ensures IsConstant(l) && IsConstant(r)
  {
  }

  // The divisor of a division that is reported, and of one that is not.
  lemma DivisorExact(c: Compilers, w: World, op: Op, l: Expr, r: Expr, dt: Type, g: Scope)
    requires ScopeOk(g) && Annotated(Bin(op, l, r, dt), g)
    ensures DividesByZero(w, op, r, dt, false) ==> IsZeroDiv(op, FoldExpr(c, r).e, dt)
    ensures IsZeroDiv(op, FoldExpr(c, r).e, dt) ==> DividesByZero(w, op, r, dt, true)
  {
    if op == OpDiv && dt.tval == TVInt {
      assert TypeOf(r) == TVInt;
      if IsConstant(FoldExpr(c, r).e) { ConstantClosed(c, r, g, w.levels); }
      if Closed(r, w.levels) { ClosedFolds(c, w, r, NOTHING, Sig(0, 0)); }
    }
  }

  // Folding reports the divisions by a closed zero, wherever they are, and
  // nothing else but what it compiles.  A divisor like 1 % 0, which has no
  // value, may be taken for a zero.
  lemma {:induction false} ErrorsCounted(c: Compilers, w: World, e: Expr, g: Scope)
    requires ScopeOk(g) && Annotated(e, g) && NoSet(e) && Patterns(e) == 0
    ensures ZeroDivs(w, e, false) <= FoldExpr(c, e).errors <= ZeroDivs(w, e, true)
    decreases e, 0
  {
    match e
    case Call(f, args, dt) =>
      if args != [] { ErrorsCountedAll(c, w, args, g); }
    case Bin(op, l, r, dt) =>
      ErrorsCounted(c, w, l, g);
      ErrorsCounted(c, w, r, g);
      DivisorExact(c, w, op, l, r, dt, g);
    case Un(op, r, dt) => ErrorsCounted(c, w, r, g);
    case _ =>
  }

  lemma {:induction false} ErrorsCountedAll(c: Compilers, w: World, es: seq<Expr>, g: Scope)
    requires ScopeOk(g) && AnnotatedAll(es, g) && NoSetAll(es) && PatternsAll(es) == 0
    ensures ZeroDivsAll(w, es, false) <= FoldAll(c, es).errors <= ZeroDivsAll(w, es, true)
    decreases es, |es|
  {
    if es != [] {
      ErrorsCounted(c, w, es[0], g);
      ErrorsCountedAll(c, w, es[1..], g);
    }
  }

  // A division by such a zero is reported whatever stands around it in the
  // operands, calls to be compiled included.
  lemma DivisionReported(c: Compilers, w: World, l: Expr, r: Expr, dt: Type)
    requires dt.tval == TVInt && ByZero(w, r, false)
    ensures FoldExpr(c, Bin(OpDiv, l, r, dt)).errors > 0
  {
    ClosedFolds(c, w, r, NOTHING, Sig(0, 0));
  }

  // A literal that payload or topicmatches gets is compiled, and reported if
  // it can not be; what is no literal always is.
  lemma PatternReported(c: Compilers, a: Expr, dt: Type)
    ensures
      var y, m := FoldExpr(c, Call(FPayload, [a], dt)), FoldExpr(c, Call(FTopicMatches, [a], dt));
      && (!a.Const? ==> y.errors > 0 && m.errors > 0)
      && (a.Const? && a.v.StrV? ==>
            && y == Folded(if c.yara(a.v.s) then 0 else 1, Call(FPayload, [Pattern(a.v.s)], dt))
            && m == Folded(if c.regexp(a.v.s) then 0 else 1, Call(FTopicMatches, [Pattern(a.v.s)], dt)))
  {
    var ps := [Pattern(LiteralText(a))];
    assert [a][1..] == [] && [Pattern(LiteralText(a))] + [] == ps && ps[1..] == [];
    assert FoldExpr(c, ps[0]) == Folded(0, ps[0]);
    assert FoldAll(c, ps).errors == 0 && FoldAll(c, ps).es == ps;
  }

  // ----- nothing is left to fold -----

  predicate IsInt(e: Expr, n: int) {
    (e.Const? && e.v.IntV? && e.v.i == n) || (e.Level? && e.idx == n)
  }

  predicate IsAtom(e: Expr) {
    e.Const? || e.Level?
  }

  // An operator node that the folder leaves alone: not over two constants,
  // no && or || after a constant, no neutral operand, and no comparison of a
  // variable with itself.
  predicate StaysBin(op: Op, l: Expr, r: Expr, dt: Type) {
    && !(IsAtom(l) && IsAtom(r))
    && (op == OpLogAnd || op == OpLogOr ==> !IsAtom(l))
    && (op == OpAdd && dt.tval == TVInt ==> !IsInt(l, 0) && !IsInt(r, 0))
    && (op == OpSub && dt.tval == TVInt ==> !IsInt(r, 0))
    && (op == OpBitOr ==> !IsInt(l, 0) && !IsInt(r, 0))
    && (op == OpBitAnd ==> !IsInt(l, -1) && !IsInt(r, -1))
    && ((op == OpEq || op == OpNEq) && l.Var? && r.Var? && dt.tval != TVFloat ==> l.name != r.name)
  }

  // A call that the folder leaves alone.
  predicate StaysCall(f: Fn, args: seq<Expr>) {
    if args == [] then
      f !in {FMsgTypeIn, FTopicIn, FPublishersInclude, FSubscribersInclude, FNodesInclude, FServicesInclude,
             FTopicsInclude, FTopicPublishersInclude, FTopicSubscribersInclude}
    else
      && (f == FString ==> !IsAtom(args[0]))
      && (f == FLevelName ==> !args[0].Level?)
      && (f == FPayload || f == FTopicMatches ==> args[0].Pattern?)
  }

  predicate Normal(e: Expr)
    decreases e
  {
    match e
    case Bin(op, l, r, dt) => StaysBin(op, l, r, dt) && Normal(l) && Normal(r)
    case Un(_, r, _) => !IsAtom(r) && Normal(r)
    case Call(f, args, _) => StaysCall(f, args) && NormalAll(args)
    case _ => true
  }

  predicate NormalAll(es: seq<Expr>)
    decreases es
  {
    es == [] || (Normal(es[0]) && NormalAll(es[1..]))
  }

  lemma {:induction false} FoldNormal(c: Compilers, e: Expr)
    ensures Normal(FoldExpr(c, e).e)
    decreases Size(e), 0
  {
    match e
    case Call(f, args, dt) =>
      if args != [] {
        SizesCompiled(c, f, args);
        FoldAllNormal(c, CompileArg(c, f, args).es);
        CompiledFirst(c, f, args);
        CallNormal(f, FoldAll(c, CompileArg(c, f, args).es).es, dt);
      }
    case Bin(op, l, r, dt) =>
      FoldNormal(c, l);
      FoldNormal(c, r);
      BinNormal(op, FoldExpr(c, l).e, FoldExpr(c, r).e, dt);
    case Un(op, r, dt) => FoldNormal(c, r);
    case _ =>
  }

  lemma {:induction false} FoldAllNormal(c: Compilers, es: seq<Expr>)
    ensures NormalAll(FoldAll(c, es).es)
    decreases Sizes(es), |es|
  {
    if es != [] {
      FoldNormal(c, es[0]);
      FoldAllNormal(c, es[1..]);
      var r := FoldAll(c, es).es;
      assert r[0] == FoldExpr(c, es[0]).e && r[1..] == FoldAll(c, es[1..]).es;
    }
  }

  // What the folder returns is an operand, a literal, or an operator node
  // that it has no more to say about.
  lemma BinStays(op: Op, l: Expr, r: Expr, dt: Type)
    ensures
      var b := FoldBinary(op, l, r, dt);
      b == l || b == r || IsLit(b) || (b == Bin(op, l, r, dt) && StaysBin(op, l, r, dt))
  {
    if FoldBinary(op, l, r, dt) == Bin(op, l, r, dt) { BinUntouched(op, l, r, dt); }
    FoldBinaryShape(op, l, r, dt);
  }

  lemma BinUntouched(op: Op, l: Expr, r: Expr, dt: Type)
    requires FoldBinary(op, l, r, dt) == Bin(op, l, r, dt)
    ensures StaysBin(op, l, r, dt)
  {
    hide EvalConstants;
    assert l != Bin(op, l, r, dt) && r != Bin(op, l, r, dt) by {
      assert Size(l) < Size(Bin(op, l, r, dt)) && Size(r) < Size(Bin(op, l, r, dt));
    }
  }

  lemma BinNormal(op: Op, l: Expr, r: Expr, dt: Type)
    requires Normal(l) && Normal(r)
    ensures Normal(FoldBinary(op, l, r, dt))
  {
    hide FoldBinary, StaysBin;
    BinStays(op, l, r, dt);
  }

  lemma CompiledFirst(c: Compilers, f: Fn, args: seq<Expr>)
    requires args != []
    ensures f == FPayload || f == FTopicMatches ==> FoldAll(c, CompileArg(c, f, args).es).es[0].Pattern?
  {
    var ps := CompileArg(c, f, args).es;
    assert FoldAll(c, ps).es[0] == FoldExpr(c, ps[0]).e;
  }

  lemma CallNormal(f: Fn, es: seq<Expr>, dt: Type)
    requires es != [] && NormalAll(es) && (f == FPayload || f == FTopicMatches ==> es[0].Pattern?)
    ensures Normal(FoldCall(f, es, dt))
  {
  }

  // ----- whole programs -----

  predicate ActsNormal(acts: seq<Act>) {
    forall a | a in acts :: Normal(a.what)
  }

  lemma {:induction false} PassNormal(c: Compilers, acts: seq<Act>, kept: seq<Act>, slots: map<string, Slot>)
    requires Roots(acts) && SlotsOk(kept, slots) && ActsNormal(kept)
    ensures ActsNormal(Pass(c, acts, kept, slots).acts)
    decreases acts
  {
    if acts != [] {
      var a := acts[0];
      var l := LookUp(a.what, kept, slots);
      var e := FoldExpr(c, a.what).e;
      SlotsStay(c, a, kept, slots);
      FoldNormal(c, a.what);
      if !IsConstant(e) {
        PassNormal(c, acts[1..], l.kept + [Act(a.con, e)], l.slots);
      } else if !CutsChain(a.con, e) {
        PassNormal(c, acts[1..], l.kept, Forget(a.what, kept, l.slots));
      }
    }
  }

  lemma {:induction false} CleanChainNormal(c: Compilers, acts: seq<Act>)
    requires Roots(acts)
    ensures ActsNormal(CleanChain(c, acts).acts) && Tidy(CleanChain(c, acts).acts)
    decreases Weight(acts)
  {
    PassShrinks(c, acts, [], map[]);
    PassNormal(c, acts, [], map[]);
    CleanChainTidy(c, acts);
    var r := Pass(c, acts, [], map[]);
    if r.changed { CleanChainNormal(c, r.acts); }
  }

  // A constant that is true, behind !>, cuts off the rest of a chain, and so
  // does any other behind =>; all other constants are taken out.
  lemma ConstantCuts(c: Compilers, con: Con, e: Expr, rest: seq<Act>, kept: seq<Act>, slots: map<string, Slot>)
    requires Root(e) && !IsSet(e) && Roots(rest) && SlotsOk(kept, slots) && FoldExpr(c, e).e.Const?
    ensures Roots([Act(con, e)] + rest)
    ensures
      var p, yes := Pass(c, [Act(con, e)] + rest, kept, slots), FoldExpr(c, e).e.v == BoolV(true);
      p.changed && p.acts ==
        if con == (if yes then NThen else Then) then kept else Pass(c, rest, kept, slots).acts
  {
    hide FoldExpr;
    var acts := [Act(con, e)] + rest;
    assert acts[0] == Act(con, e) && acts[1..] == rest;
  }

  // A rule of a folded program: it can be triggered, it does something, none
  // of it can be folded, and no variable is set twice.
  predicate RuleDone(r: Rule) {
    && (r.expr.Const? ==> r.expr.v == BoolV(true))
    && Normal(r.expr) && r.acts != [] && ActsNormal(r.acts) && Tidy(r.acts)
  }

  lemma {:induction false} FoldRulesDone(c: Compilers, rs: seq<Rule>)
    requires RulesRooted(rs) && FoldRules(c, rs).errors == 0
    ensures forall r | r in FoldRules(c, rs).rules :: RuleDone(r)
    decreases rs
  {
    if rs != [] {
      assert rs[0] in rs;
      FoldNormal(c, rs[0].expr);
      CleanChainNormal(c, rs[0].acts);
      FoldRulesDone(c, rs[1..]);
    }
  }
}
