// Constant folding of expressions (tree/const.go) and what it preserves.
module Fold {
  import opened Wrappers
  import opened Types
  import opened Int64
  import opened Syntax
  import opened Semantics
  import opened TypeCheck
  import opened Soundness

  // Which texts the yara and regexp compilers accept.
  datatype Compilers = Compilers(yara: string -> bool, regexp: string -> bool)

  datatype Folded = Folded(errors: nat, e: Expr)

  datatype FoldedAll = FoldedAll(errors: nat, es: seq<Expr>)

  // The integer field of a constant symbol, zero unless it is an integer.
  function IntField(e: Expr): int64
    requires IsConstant(e)
  {
    if ConstValue(e).IntV? then ConstValue(e).i else 0
  }

  // A constant equal to the neutral element n is dropped.
  function FoldInt(s: Expr, e1: Expr, e2: Expr, n: int64): Expr {
    if IsConstant(e2) && IntField(e2) == n then e1
    else if IsConstant(e1) && IntField(e1) == n then e2
    else s
  }

  // Evaluation of an operator on two constants, without a context: an error
  // is not reported, and the symbol keeps the value it had.
  function EvalConstants(op: Op, a: Value, b: Value): Value {
    if IsShort(op, a) then a
    else
      var c := BinExpr(a, b, op);
      if c.err.Some? && IsCompareOp(op) then BoolV(BoolField(a)) else c.v
  }

  function FoldBinary(op: Op, l: Expr, r: Expr, dt: Type): Expr {
    var s := Bin(op, l, r, dt);
    var isInt := dt.tval == TVInt;
    if IsConstant(l) && IsConstant(r) then Lit(EvalConstants(op, ConstValue(l), ConstValue(r)))
    else if op == OpLogOr && IsConstant(l) then
      if BoolField(ConstValue(l)) then Lit(BoolV(true)) else r
    else if op == OpLogAnd && IsConstant(l) then
      if !BoolField(ConstValue(l)) then Lit(BoolV(false)) else r
    else if op == OpAdd then
      if isInt then FoldInt(s, l, r, 0) else s
    else if op == OpBitOr then FoldInt(s, l, r, 0)
    else if op == OpSub then
      if IsConstant(r) && isInt && IntField(r) == 0 then l else s
    else if op == OpBitAnd then FoldInt(s, l, r, -1)
    else if r.Var? && dt.tval != TVFloat && NameOf(l) == NameOf(r) then
      if op == OpEq then Lit(BoolV(true))
      else if op == OpNEq then Lit(BoolV(false))
      else s
    else s
  }

  function FoldUnary(op: Op, r: Expr, dt: Type): Expr {
    if IsConstant(r) then Lit(UnExpr(ConstValue(r), op)) else Un(op, r, dt)
  }

  predicate IsZeroDiv(op: Op, r: Expr, dt: Type) {
    op == OpDiv && IsConstant(r) && dt.tval == TVInt && IntField(r) == 0
  }

  // Two occurrences of one declared symbol are one node.
  predicate SameSymbol(a: Expr, b: Expr) {
    || (a.Var? && b.Var? && a.name == b.name)
    || (a.Level? && b.Level? && a.name == b.name)
    || (a.Const? && b.Const? && a.name == b.name && a.name != LIT)
  }

  predicate Compiles(c: Compilers, f: Fn, text: string) {
    if f == FPayload then c.yara(text) else c.regexp(text)
  }

  predicate CompilesFirst(f: Fn) {
    f == FPayload || f == FTopicMatches
  }

  // The first argument of payload and topicmatches is compiled in place.
  function CompileArg(c: Compilers, f: Fn, args: seq<Expr>): FoldedAll
    requires |args| > 0
  {
    if CompilesFirst(f) then
      var text := LiteralText(args[0]);
      FoldedAll(Count(!args[0].Const?) + Count(!Compiles(c, f, text)), [Pattern(text)] + args[1..])
    else FoldedAll(0, args)
  }

  // A call whose arguments are folded already.
  function FoldCall(f: Fn, args: seq<Expr>, dt: Type): Expr
    requires |args| > 0
  {
    if f == FString && IsConstant(args[0]) then Lit(StrV(Render(ConstValue(args[0]))))
    else if f == FLevelName && args[0].Level? then Lit(StrV(args[0].name))
    else Call(f, args, dt)
  }

  function FoldExpr(c: Compilers, e: Expr): Folded
    decreases Size(e), 0
  {
    match e
    case Call(f, args, dt) =>
      if f == FSet && |args| >= 2 && SameSymbol(args[0], args[1]) then Folded(0, Lit(BoolV(true)))
      else if args == [] then
        if IsIncludeName(f) then Folded(0, Lit(BoolV(true)))
        else Folded(Count(CompilesFirst(f)), e)
      else
        var p := CompileArg(c, f, args);
        SizesCompiled(c, f, args);
        var q := FoldAll(c, p.es);
        Folded(p.errors + q.errors, FoldCall(f, q.es, dt))
    case Bin(op, l, r, dt) =>
      var l', r' := FoldExpr(c, l), FoldExpr(c, r);
      Folded(l'.errors + r'.errors + Count(IsZeroDiv(op, r'.e, dt)), FoldBinary(op, l'.e, r'.e, dt))
    case Un(op, r, dt) =>
      var r' := FoldExpr(c, r);
      Folded(r'.errors, FoldUnary(op, r'.e, dt))
    case _ => Folded(0, e)
  }

  function FoldAll(c: Compilers, es: seq<Expr>): (r: FoldedAll)
    ensures |r.es| == |es|
    decreases Sizes(es), |es|
  {
    if es == [] then FoldedAll(0, [])
    else
      var h, t := FoldExpr(c, es[0]), FoldAll(c, es[1..]);
      FoldedAll(h.errors + t.errors, [h.e] + t.es)
  }

  lemma SizesCompiled(c: Compilers, f: Fn, args: seq<Expr>)
    requires |args| > 0
    ensures Sizes(CompileArg(c, f, args).es) <= Sizes(args)
  {
    if CompilesFirst(f) {
      hide Sizes;
      PatternIsSmall(LiteralText(args[0]), args[1..]);
      FirstHasSize(args);
    }
  }

  lemma PatternIsSmall(text: string, es: seq<Expr>)
    ensures Sizes([Pattern(text)] + es) == 1 + Sizes(es)
  {
    assert ([Pattern(text)] + es)[0] == Pattern(text) && ([Pattern(text)] + es)[1..] == es;
  }

  lemma FirstHasSize(es: seq<Expr>)
    requires es != []
    ensures Sizes(es) >= 1 + Sizes(es[1..])
  {
    assert Size(es[0]) >= 1;
  }

  // ----- folding keeps reads, effects and size in check -----

  // The folder builds no operator: what it returns is an operand, the node
  // itself, or a constant.
  lemma FoldBinaryShape(op: Op, l: Expr, r: Expr, dt: Type)
    ensures
      var b := FoldBinary(op, l, r, dt);
      b == l || b == r || b == Bin(op, l, r, dt) || IsLit(b)
  {
  }

  predicate IsLit(e: Expr) {
    e.Const? && e.name == LIT
  }

  lemma {:induction false} FoldShrinks(c: Compilers, e: Expr)
    ensures Shrunk(FoldExpr(c, e).e, e)
    decreases Size(e), 0
  {
    match e
    case Call(f, args, dt) =>
      if args != [] {
        SizesCompiled(c, f, args);
        CompiledReads(c, f, args);
        if QuietAll(args) { CompiledQuiet(c, f, args); }
        FoldAllShrinks(c, CompileArg(c, f, args).es);
        if f == FSignal { NameStays(c, args); }
        CallShrinks(f, args, FoldAll(c, CompileArg(c, f, args).es).es, dt);
      }
    case Bin(op, l, r, dt) =>
      FoldShrinks(c, l);
      FoldShrinks(c, r);
      BinaryShrinks(op, l, r, FoldExpr(c, l).e, FoldExpr(c, r).e, dt);
    case Un(op, r, dt) =>
      FoldShrinks(c, r);
    case _ =>
  }

  // An expression that is no larger, reads no more and does no more.
  predicate Shrunk(e': Expr, e: Expr) {
    Size(e') <= Size(e) && Reads(e') <= Reads(e) && (Quiet(e) ==> Quiet(e'))
  }

  lemma NameStays(c: Compilers, args: seq<Expr>)
    requires args != []
    ensures NamesNoSignal(args) ==> NamesNoSignal(FoldAll(c, args).es)
  {
  }

  lemma CallShrinks(f: Fn, args: seq<Expr>, es: seq<Expr>, dt: Type)
    requires es != [] && Sizes(es) <= Sizes(args) && ReadsAll(es) <= ReadsAll(args)
    requires QuietAll(args) ==> QuietAll(es)
    requires f == FSignal && NamesNoSignal(args) ==> NamesNoSignal(es)
    ensures Shrunk(FoldCall(f, es, dt), Call(f, args, dt))
  {
    hide Sizes, ReadsAll, QuietAll;
  }

  lemma BinaryShrinks(op: Op, l: Expr, r: Expr, l': Expr, r': Expr, dt: Type)
    requires Shrunk(l', l) && Shrunk(r', r)
    ensures Shrunk(FoldBinary(op, l', r', dt), Bin(op, l, r, dt))
  {
    hide FoldBinary;
    FoldBinaryShape(op, l', r', dt);
  }

  lemma {:induction false} FoldAllShrinks(c: Compilers, es: seq<Expr>)
    ensures Sizes(FoldAll(c, es).es) <= Sizes(es)
    ensures ReadsAll(FoldAll(c, es).es) <= ReadsAll(es)
    ensures QuietAll(es) ==> QuietAll(FoldAll(c, es).es)
    decreases Sizes(es), |es|
  {
    if es != [] {
      FoldShrinks(c, es[0]);
      FoldAllShrinks(c, es[1..]);
    }
  }

  lemma PatternReadsNothing(text: string, es: seq<Expr>)
    ensures ReadsAll([Pattern(text)] + es) == ReadsAll(es)
  {
    assert ([Pattern(text)] + es)[0] == Pattern(text) && ([Pattern(text)] + es)[1..] == es;
  }

  lemma ReadsOfRest(es: seq<Expr>)
    requires es != []
    ensures ReadsAll(es[1..]) <= ReadsAll(es)
  {
  }

  lemma QuietPrepend(e: Expr, es: seq<Expr>)
    ensures QuietAll([e] + es) == (Quiet(e) && QuietAll(es))
  {
    assert ([e] + es)[0] == e && ([e] + es)[1..] == es;
  }

  lemma CompiledReads(c: Compilers, f: Fn, args: seq<Expr>)
    requires |args| > 0
    ensures ReadsAll(CompileArg(c, f, args).es) <= ReadsAll(args)
  {
    if CompilesFirst(f) {
      hide ReadsAll;
      PatternReadsNothing(LiteralText(args[0]), args[1..]);
      ReadsOfRest(args);
    }
  }

  lemma CompiledQuiet(c: Compilers, f: Fn, args: seq<Expr>)
    requires |args| > 0 && QuietAll(args)
    ensures QuietAll(CompileArg(c, f, args).es)
  {
    if CompilesFirst(f) { QuietPrepend(Pattern(LiteralText(args[0])), args[1..]); }
  }

  // ----- folding a folded expression changes nothing -----

  predicate NoSet(e: Expr) {
    match e
    case Call(f, args, _) => f != FSet && NoSetAll(args)
    case Bin(_, l, r, _) => NoSet(l) && NoSet(r)
    case Un(_, r, _) => NoSet(r)
    case _ => true
  }

  predicate NoSetAll(es: seq<Expr>) {
    es == [] || (NoSet(es[0]) && NoSetAll(es[1..]))
  }

  lemma CompiledHasNoSet(c: Compilers, f: Fn, args: seq<Expr>)
    requires args != [] && NoSetAll(args)
    ensures NoSetAll(CompileArg(c, f, args).es)
  {
    var es := [Pattern(LiteralText(args[0]))] + args[1..];
    assert es[0] == Pattern(LiteralText(args[0])) && es[1..] == args[1..];
  }

  // A call whose arguments do not change any more does not change either.
  lemma FoldedCallFixed(c: Compilers, f: Fn, args: seq<Expr>, dt: Type)
    requires args != [] && f != FSet
    requires
      var es := FoldAll(c, CompileArg(c, f, args).es).es;
      FoldAll(c, es).es == es
    ensures
      var es := FoldAll(c, CompileArg(c, f, args).es).es;
      FoldExpr(c, FoldCall(f, es, dt)).e == FoldCall(f, es, dt)
  {
    CompiledOnce(c, f, args);
  }

  // A compiled argument is compiled to itself.
  lemma CompiledOnce(c: Compilers, f: Fn, args: seq<Expr>)
    requires args != []
    ensures
      var es := FoldAll(c, CompileArg(c, f, args).es).es;
      CompileArg(c, f, es).es == es
  {
    var ps := CompileArg(c, f, args).es;
    var es := FoldAll(c, ps).es;
    if CompilesFirst(f) {
      assert es[0] == FoldExpr(c, ps[0]).e == ps[0];
      assert es == [es[0]] + es[1..];
    }
  }

  lemma {:induction false} FoldIdempotent(c: Compilers, e: Expr)
    requires NoSet(e)
    ensures FoldExpr(c, FoldExpr(c, e).e).e == FoldExpr(c, e).e
    decreases Size(e), 0
  {
    match e
    case Call(f, args, dt) =>
      if args != [] {
        SizesCompiled(c, f, args);
        CompiledHasNoSet(c, f, args);
        FoldAllIdempotent(c, CompileArg(c, f, args).es);
        FoldedCallFixed(c, f, args, dt);
      }
    case Bin(op, l, r, dt) =>
      FoldIdempotent(c, l);
      FoldIdempotent(c, r);
      FoldBinaryShape(op, FoldExpr(c, l).e, FoldExpr(c, r).e, dt);
    case Un(op, r, dt) =>
      FoldIdempotent(c, r);
    case _ =>
  }

  lemma {:induction false} FoldAllIdempotent(c: Compilers, es: seq<Expr>)
    requires NoSetAll(es)
    ensures FoldAll(c, FoldAll(c, es).es).es == FoldAll(c, es).es
    decreases Sizes(es), |es|
  {
    if es != [] {
      FoldIdempotent(c, es[0]);
      FoldAllIdempotent(c, es[1..]);
      var r := FoldAll(c, es).es;
      assert r[0] == FoldExpr(c, es[0]).e && r[1..] == FoldAll(c, es[1..]).es;
    }
  }

  lemma FoldTwo(c: Compilers, a: Expr, b: Expr)
    ensures FoldAll(c, [a, b]) ==
      FoldedAll(FoldExpr(c, a).errors + FoldExpr(c, b).errors, [FoldExpr(c, a).e, FoldExpr(c, b).e])
  {
    assert [a, b][1..] == [b] && [b][1..] == [];
    assert FoldAll(c, []) == FoldedAll(0, []);
    assert FoldAll(c, [b]) == FoldedAll(FoldExpr(c, b).errors + 0, [FoldExpr(c, b).e] + []);
  }

  // A set needs two passes: x + 0 is folded to x after the two arguments
  // have been compared.
  lemma SetNeedsTwoPasses(c: Compilers, g: Scope)
    ensures
      var x := Var("x", INT_TYPE);
      var e := Call(FSet, [x, Bin(OpAdd, x, Lit(IntV(0)), INT_TYPE)], BOOL_TYPE);
      var e1 := FoldExpr(c, e).e;
      e1 == Call(FSet, [x, x], BOOL_TYPE) && FoldExpr(c, e1).e == Lit(BoolV(true))
  {
    var x := Var("x", INT_TYPE);
    var plus := Bin(OpAdd, x, Lit(IntV(0)), INT_TYPE);
    assert FoldExpr(c, plus).e == x;
    FoldTwo(c, x, plus);
  }

  // ----- a second fold reports what the first has compiled -----

  // The calls whose first argument is compiled.
  function Patterns(e: Expr): nat {
    match e
    case Call(f, args, _) => Count(CompilesFirst(f)) + PatternsAll(args)
    case Bin(_, l, r, _) => Patterns(l) + Patterns(r)
    case Un(_, r, _) => Patterns(r)
    case _ => 0
  }

  function PatternsAll(es: seq<Expr>): nat {
    if es == [] then 0 else Patterns(es[0]) + PatternsAll(es[1..])
  }

  // An expression that folds without an error reports one for each call with
  // a compiled argument when it is folded again.
  lemma {:induction false} SecondFold(c: Compilers, e: Expr)
    requires NoSet(e) && FoldExpr(c, e).errors == 0
    ensures FoldExpr(c, FoldExpr(c, e).e).errors == Patterns(FoldExpr(c, e).e)
    decreases Size(e), 0
  {
    match e
    case Call(f, args, dt) =>
      if args != [] {
        SizesCompiled(c, f, args);
        CompiledHasNoSet(c, f, args);
        SecondFoldAll(c, CompileArg(c, f, args).es);
        CallSecondFold(c, f, args, dt);
      }
    case Bin(op, l, r, dt) =>
      SecondFold(c, l);
      SecondFold(c, r);
      FoldIdempotent(c, l);
      FoldIdempotent(c, r);
      FoldBinaryShape(op, FoldExpr(c, l).e, FoldExpr(c, r).e, dt);
    case Un(op, r, dt) =>
      SecondFold(c, r);
      FoldIdempotent(c, r);
    case _ =>
  }

  lemma {:induction false} SecondFoldAll(c: Compilers, es: seq<Expr>)
    requires NoSetAll(es) && FoldAll(c, es).errors == 0
    ensures FoldAll(c, FoldAll(c, es).es).errors == PatternsAll(FoldAll(c, es).es)
    decreases Sizes(es), |es|
  {
    if es != [] {
      SecondFold(c, es[0]);
      SecondFoldAll(c, es[1..]);
      var r := FoldAll(c, es).es;
      assert r[0] == FoldExpr(c, es[0]).e && r[1..] == FoldAll(c, es[1..]).es;
    }
  }

  lemma CallSecondFold(c: Compilers, f: Fn, args: seq<Expr>, dt: Type)
    requires args != [] && f != FSet && FoldExpr(c, Call(f, args, dt)).errors == 0
    requires
      var es := FoldAll(c, CompileArg(c, f, args).es).es;
      FoldAll(c, es).errors == PatternsAll(es)
    ensures
      var e := FoldCall(f, FoldAll(c, CompileArg(c, f, args).es).es, dt);
      FoldExpr(c, e).errors == Patterns(e)
  {
    var es := FoldAll(c, CompileArg(c, f, args).es).es;
    CompiledOnce(c, f, args);
    if CompilesFirst(f) {
      var ps := CompileArg(c, f, args).es;
      assert es[0] == FoldExpr(c, ps[0]).e == Pattern(LiteralText(args[0]));
    }
  }

  // Folding makes no set and no call to be compiled.
  lemma {:induction false} FoldKeepsCalls(c: Compilers, e: Expr)
    requires NoSet(e)
    ensures NoSet(FoldExpr(c, e).e) && Patterns(FoldExpr(c, e).e) <= Patterns(e)
    decreases Size(e), 0
  {
    match e
    case Call(f, args, dt) =>
      if args != [] {
        SizesCompiled(c, f, args);
        CompiledHasNoSet(c, f, args);
        CompiledPatterns(c, f, args);
        FoldAllKeepsCalls(c, CompileArg(c, f, args).es);
      }
    case Bin(op, l, r, dt) =>
      FoldKeepsCalls(c, l);
      FoldKeepsCalls(c, r);
      FoldBinaryShape(op, FoldExpr(c, l).e, FoldExpr(c, r).e, dt);
    case Un(op, r, dt) => FoldKeepsCalls(c, r);
    case _ =>
  }

  lemma {:induction false} FoldAllKeepsCalls(c: Compilers, es: seq<Expr>)
    requires NoSetAll(es)
    ensures NoSetAll(FoldAll(c, es).es) && PatternsAll(FoldAll(c, es).es) <= PatternsAll(es)
    decreases Sizes(es), |es|
  {
    if es != [] {
      FoldKeepsCalls(c, es[0]);
      FoldAllKeepsCalls(c, es[1..]);
      var r := FoldAll(c, es).es;
      assert r[0] == FoldExpr(c, es[0]).e && r[1..] == FoldAll(c, es[1..]).es;
    }
  }

  lemma CompiledPatterns(c: Compilers, f: Fn, args: seq<Expr>)
    requires args != []
    ensures PatternsAll(CompileArg(c, f, args).es) <= PatternsAll(args)
  {
    var es := [Pattern(LiteralText(args[0]))] + args[1..];
    assert es[0] == Pattern(LiteralText(args[0])) && es[1..] == args[1..];
  }

  // ----- folding preserves meaning -----

  // What makes the folder right about an expression, besides its types.
  // Symbols that are not variables have names no variable has; in particular
  // no variable is called "lit".  A level carries its own index.  topicin and
  // subscribersinclude are not called without arguments.
  predicate Foldable(e: Expr, g: Scope, levels: seq<LevelDecl>)
    decreases e
  {
    match e
    case Const(n, _) => n !in g
    case Level(n, i) => n !in g && 0 <= i < |levels| && levels[i].name == n
    case Var(_, _) => true
    case Pattern(_) => true
    case Call(f, args, _) =>
      && (args == [] ==> f != FTopicIn && f != FSubscribersInclude)
      && FoldableAll(args, g, levels)
    case Bin(_, l, r, _) => Foldable(l, g, levels) && Foldable(r, g, levels)
    case Un(_, r, _) => Foldable(r, g, levels)
  }

  predicate FoldableAll(es: seq<Expr>, g: Scope, levels: seq<LevelDecl>)
    decreases es
  {
    es == [] || (Foldable(es[0], g, levels) && FoldableAll(es[1..], g, levels))
  }

  predicate Ready(e: Expr, g: Scope, levels: seq<LevelDecl>) {
    ScopeOk(g) && LIT !in g && Annotated(e, g) && Foldable(e, g, levels)
  }

  predicate ReadyAll(es: seq<Expr>, g: Scope, levels: seq<LevelDecl>) {
    ScopeOk(g) && LIT !in g && AnnotatedAll(es, g) && FoldableAll(es, g, levels)
  }

  // No variable, and so no expression, is of a type without values.
  lemma {:induction false} TypeConcrete(e: Expr, g: Scope)
    requires ScopeOk(g) && Annotated(e, g)
    ensures TypeOf(e) in {TVUndef, TVInt, TVBool, TVString}
    decreases e
  {
    match e
    case Call(f, _, _) => ReturnType(f);
    case Bin(op, l, r, _) => TypeConcrete(l, g);
    case Un(op, r, _) => TypeConcrete(r, g);
    case _ =>
  }

  // Folding may only remove faults.
  predicate Refines(r: Res, r': Res) {
    r.Ok? ==> r' == r
  }

  lemma EvalConstantsSound(op: Op, a: Value, b: Value)
    requires ValueType(a) == ValueType(b) != TVUndef && IsCompatOp(ValueType(a), op)
    ensures ValueType(EvalConstants(op, a, b)) == if IsCompareOp(op) then TVBool else ValueType(a)
    ensures !IsShort(op, a) && BinExpr(a, b, op).err.None? ==> EvalConstants(op, a, b) == BinExpr(a, b, op).v
  {
    OpSound(a, b, op);
  }

  // The neutral elements 0 + x, 0 | x, x - 0 and -1 & x.
  lemma NeutralSound(op: Op, x: int64)
    requires op in {OpAdd, OpBitOr, OpBitAnd, OpSub}
    ensures IntOp(x, NeutralOf(op), op) == OpRes(IntV(x), None)
    ensures op != OpSub ==> IntOp(NeutralOf(op), x, op) == OpRes(IntV(x), None)
  {
    if op == OpBitOr || op == OpBitAnd { BitOp64Neutral(x); }
  }

  function NeutralOf(op: Op): int64 {
    if op == OpBitAnd then -1 else 0
  }

  // Neutral elements at the level of symbols.
  lemma NeutralValue(op: Op, x: Value, n: Value)
    requires x.IntV? && op in {OpAdd, OpBitOr, OpBitAnd, OpSub} && n == IntV(NeutralOf(op))
    ensures BinExpr(x, n, op) == OpRes(x, None)
    ensures op != OpSub ==> BinExpr(n, x, op) == OpRes(x, None)
  {
    hide IntOp;
    NeutralSound(op, x.i);
  }

  lemma NeutralRight(w: World, op: Op, l: Expr, r: Expr, dt: Type, st: St, sig: Sig, g: Scope)
    requires op in {OpAdd, OpBitOr, OpBitAnd, OpSub} && TypeOf(l) == TVInt && Annotated(l, g)
    requires IsConstant(r) && ConstValue(r) == IntV(NeutralOf(op))
    requires ScopeOk(g) && StoreTyped(st, g)
    ensures Refines(Eval(w, Bin(op, l, r, dt), st, sig), Eval(w, l, st, sig))
  {
    hide BinExpr;
    ValueTyped(w, l, st, sig, g);
    var a := Eval(w, l, st, sig);
    if a.Ok? { NeutralValue(op, a.v, ConstValue(r)); }
  }

  lemma NeutralLeft(w: World, op: Op, l: Expr, r: Expr, dt: Type, st: St, sig: Sig, g: Scope)
    requires op in {OpAdd, OpBitOr, OpBitAnd} && TypeOf(r) == TVInt && Annotated(r, g)
    requires IsConstant(l) && ConstValue(l) == IntV(NeutralOf(op))
    requires ScopeOk(g) && StoreTyped(st, g)
    ensures Refines(Eval(w, Bin(op, l, r, dt), st, sig), Eval(w, r, st, sig))
  {
    hide BinExpr;
    ValueTyped(w, r, st, sig, g);
    var b := Eval(w, r, st, sig);
    if b.Ok? { NeutralValue(op, b.v, ConstValue(l)); }
  }

  lemma FoldIntSound(w: World, op: Op, l: Expr, r: Expr, dt: Type, n: int64, st: St, sig: Sig, g: Scope)
    requires (op in {OpAdd, OpBitOr} && n == 0) || (op == OpBitAnd && n == -1)
    requires TypeOf(l) == TypeOf(r) == TVInt && Annotated(l, g) && Annotated(r, g)
    requires ScopeOk(g) && StoreTyped(st, g)
    ensures
      var s := Bin(op, l, r, dt);
      Refines(Eval(w, s, st, sig), Eval(w, FoldInt(s, l, r, n), st, sig))
  {
    if IsConstant(r) && IntField(r) == n {
      NeutralRight(w, op, l, r, dt, st, sig, g);
    } else if IsConstant(l) && IntField(l) == n {
      NeutralLeft(w, op, l, r, dt, st, sig, g);
    }
  }

  lemma SameNameSameVariable(l: Expr, r: Expr, g: Scope, levels: seq<LevelDecl>)
    requires Ready(l, g, levels) && Ready(r, g, levels) && r.Var? && NameOf(l) == NameOf(r)
    ensures l == r
  {
  }

  lemma FoldConstantsSound(w: World, op: Op, l: Expr, r: Expr, dt: Type, st: St, sig: Sig)
    requires IsConstant(l) && IsConstant(r) && TypeOf(Bin(op, l, r, dt)) != TVUndef
    ensures
      var v := EvalConstants(op, ConstValue(l), ConstValue(r));
      && Refines(Eval(w, Bin(op, l, r, dt), st, sig), Ok(v, sig))
      && ValueType(v) == TypeOf(Bin(op, l, r, dt))
  {
    var a, b := ConstValue(l), ConstValue(r);
    assert Eval(w, l, st, sig) == Ok(a, sig) && Eval(w, r, st, sig) == Ok(b, sig);
    EvalConstantsSound(op, a, b);
  }

  lemma FoldLogicalSound(w: World, op: Op, l: Expr, r: Expr, dt: Type, st: St, sig: Sig, g: Scope)
    requires op == OpLogOr || op == OpLogAnd
    requires IsConstant(l) && !IsConstant(r) && TypeOf(l) == TypeOf(r) == TVBool
    requires ScopeOk(g) && StoreTyped(st, g) && Annotated(r, g)
    ensures Refines(Eval(w, Bin(op, l, r, dt), st, sig), Eval(w, FoldBinary(op, l, r, dt), st, sig))
  {
    ValueTyped(w, r, st, sig, g);
    assert Eval(w, l, st, sig) == Ok(ConstValue(l), sig) && ConstValue(l).BoolV?;
  }

  lemma SameVariableSound(w: World, op: Op, x: Expr, dt: Type, st: St, sig: Sig, g: Scope)
    requires x.Var? && (op == OpEq || op == OpNEq) && TypeOf(x) != TVUndef && Annotated(x, g)
    requires ScopeOk(g) && StoreTyped(st, g)
    ensures Refines(Eval(w, Bin(op, x, x, dt), st, sig), Ok(BoolV(op == OpEq), sig))
  {
    EvalSound(w, x, st, sig, g);
  }

  lemma FoldBinarySound(w: World, op: Op, l: Expr, r: Expr, dt: Type, st: St, sig: Sig, g: Scope)
    requires Ready(Bin(op, l, r, dt), g, w.levels) && TypeOf(Bin(op, l, r, dt)) != TVUndef
    requires StoreTyped(st, g)
    ensures Refines(Eval(w, Bin(op, l, r, dt), st, sig), Eval(w, FoldBinary(op, l, r, dt), st, sig))
    ensures Ready(FoldBinary(op, l, r, dt), g, w.levels)
    ensures TypeOf(FoldBinary(op, l, r, dt)) == TypeOf(Bin(op, l, r, dt))
  {
    TypeConcrete(l, g);
    if IsConstant(l) && IsConstant(r) {
      FoldConstantsSound(w, op, l, r, dt, st, sig);
    } else if (op == OpLogOr || op == OpLogAnd) && IsConstant(l) {
      LogicalTyped(op, l, r, dt);
      FoldLogicalSound(w, op, l, r, dt, st, sig, g);
    } else if op == OpAdd {
      if dt.tval == TVInt { FoldIntSound(w, op, l, r, dt, 0, st, sig, g); }
    } else if op == OpBitOr {
      FoldIntSound(w, op, l, r, dt, 0, st, sig, g);
    } else if op == OpSub {
      if IsConstant(r) && IntField(r) == 0 { NeutralRight(w, op, l, r, dt, st, sig, g); }
    } else if op == OpBitAnd {
      FoldIntSound(w, op, l, r, dt, -1, st, sig, g);
    } else if (op == OpEq || op == OpNEq) && r.Var? && NameOf(l) == NameOf(r) {
      SameNameSameVariable(l, r, g, w.levels);
      SameVariableSound(w, op, r, dt, st, sig, g);
    }
  }

  lemma LogicalTyped(op: Op, l: Expr, r: Expr, dt: Type)
    requires op == OpLogOr || op == OpLogAnd
    requires TypeOf(Bin(op, l, r, dt)) != TVUndef
    ensures IsConstant(l) ==> TypeOf(l) == TypeOf(r) == TVBool
  {
  }

  // In a subexpression that a short circuit skips, faults do not matter.
  lemma BinCongruence(w: World, op: Op, l: Expr, r: Expr, l': Expr, r': Expr, dt: Type, st: St, sig: Sig)
    requires Refines(Eval(w, l, st, sig), Eval(w, l', st, sig))
    requires var a := Eval(w, l, st, sig);
             a.Ok? ==> Refines(Eval(w, r, st, a.sig), Eval(w, r', st, a.sig))
    ensures Refines(Eval(w, Bin(op, l, r, dt), st, sig), Eval(w, Bin(op, l', r', dt), st, sig))
  {
  }

  // Constant folding preserves meaning: when an expression evaluates without
  // a fault, its folded form evaluates to the same value of the same type and
  // consumes the same signals.
  lemma {:induction false} FoldSound(c: Compilers, w: World, e: Expr, st: St, sig: Sig, g: Scope)
    requires Ready(e, g, w.levels) && TypeOf(e) != TVUndef && StoreTyped(st, g)
    requires FoldExpr(c, e).errors == 0
    ensures Refines(Eval(w, e, st, sig), Eval(w, FoldExpr(c, e).e, st, sig))
    ensures Ready(FoldExpr(c, e).e, g, w.levels)
    ensures TypeOf(FoldExpr(c, e).e) == TypeOf(e)
    decreases Size(e), 0
  {
    hide FoldBinary, FoldUnary, FoldCall, CallFn, BinExpr, UnExpr, StoreTyped;
    match e
    case Call(f, args, dt) =>
      if args == [] {
        if IsIncludeName(f) { ZeroArgs(w, f, st, sig); }
      } else {
        FoldArgsSound(c, w, f, args, st, sig, g);
        CallFoldSound(w, f, args, FoldArgs(c, f, args).es, dt, st, sig, g);
      }
    case Bin(op, l, r, dt) =>
      var l', r' := FoldExpr(c, l).e, FoldExpr(c, r).e;
      FoldSound(c, w, l, st, sig, g);
      var a := Eval(w, l, st, sig);
      FoldSound(c, w, r, st, if a.Ok? then a.sig else sig, g);
      BinFoldSound(w, op, l, r, l', r', dt, st, sig, g);
    case Un(op, r, dt) =>
      FoldSound(c, w, r, st, sig, g);
      UnFoldSound(w, op, r, FoldExpr(c, r).e, dt, st, sig, g);
    case _ =>
  }

  // An operator, given what folding does to its operands.
  lemma BinFoldSound(
      w: World, op: Op, l: Expr, r: Expr, l': Expr, r': Expr, dt: Type, st: St, sig: Sig, g: Scope)
    requires Ready(Bin(op, l, r, dt), g, w.levels) && TypeOf(Bin(op, l, r, dt)) != TVUndef && StoreTyped(st, g)
    requires Refines(Eval(w, l, st, sig), Eval(w, l', st, sig)) && Ready(l', g, w.levels) && TypeOf(l') == TypeOf(l)
    requires var a := Eval(w, l, st, sig);
      a.Ok? ==> Refines(Eval(w, r, st, a.sig), Eval(w, r', st, a.sig))
    requires Ready(r', g, w.levels) && TypeOf(r') == TypeOf(r)
    ensures Refines(Eval(w, Bin(op, l, r, dt), st, sig), Eval(w, FoldBinary(op, l', r', dt), st, sig))
    ensures Ready(FoldBinary(op, l', r', dt), g, w.levels)
    ensures TypeOf(FoldBinary(op, l', r', dt)) == TypeOf(Bin(op, l, r, dt))
  {
    hide FoldBinary;
    BinCongruence(w, op, l, r, l', r', dt, st, sig);
    FoldBinarySound(w, op, l', r', dt, st, sig, g);
  }

  lemma UnFoldSound(w: World, op: Op, r: Expr, r': Expr, dt: Type, st: St, sig: Sig, g: Scope)
    requires Ready(Un(op, r, dt), g, w.levels) && TypeOf(Un(op, r, dt)) != TVUndef && StoreTyped(st, g)
    requires Refines(Eval(w, r, st, sig), Eval(w, r', st, sig)) && Ready(r', g, w.levels) && TypeOf(r') == TypeOf(r)
    ensures Refines(Eval(w, Un(op, r, dt), st, sig), Eval(w, FoldUnary(op, r', dt), st, sig))
    ensures Ready(FoldUnary(op, r', dt), g, w.levels)
    ensures TypeOf(FoldUnary(op, r', dt)) == TypeOf(Un(op, r, dt))
  {
    TypeConcrete(r, g);
    UnConstSound(op, r');
  }

  // The arguments of a call after folding.
  function FoldArgs(c: Compilers, f: Fn, args: seq<Expr>): (r: FoldedAll)
    requires |args| > 0
    ensures |r.es| == |args|
  {
    var p := CompileArg(c, f, args);
    var q := FoldAll(c, p.es);
    FoldedAll(p.errors + q.errors, q.es)
  }

  predicate RefinesAll(r: ResSeq, r': ResSeq) {
    r.Oks? ==> r' == r
  }

  lemma {:induction false} FoldArgsSound(
      c: Compilers, w: World, f: Fn, args: seq<Expr>, st: St, sig: Sig, g: Scope)
    requires ReadyAll(args, g, w.levels) && StoreTyped(st, g) && |args| > 0
    requires ArgsTyped(SigOf(f), args, 0, args)
    requires FoldArgs(c, f, args).errors == 0
    ensures
      var args' := FoldArgs(c, f, args).es;
      && RefinesAll(EvalAll(w, args, st, sig), EvalAll(w, args', st, sig))
      && ReadyAll(args', g, w.levels) && ArgsTyped(SigOf(f), args', 0, args')
    decreases Sizes(args), |args| + 1
  {
    var es := CompileArg(c, f, args).es;
    SizesCompiled(c, f, args);
    CompileArgSound(c, w, f, args, st, sig, g);
    FoldAllSound(c, w, SigOf(f), es, FoldAll(c, es).es, 0, es, st, sig, g);
  }

  lemma CompileArgSound(c: Compilers, w: World, f: Fn, args: seq<Expr>, st: St, sig: Sig, g: Scope)
    requires ReadyAll(args, g, w.levels) && |args| > 0 && ArgsTyped(SigOf(f), args, 0, args)
    requires CompileArg(c, f, args).errors == 0
    ensures
      var es := CompileArg(c, f, args).es;
      && EvalAll(w, es, st, sig) == EvalAll(w, args, st, sig)
      && ReadyAll(es, g, w.levels) && ArgsTyped(SigOf(f), es, 0, es)
  {
    if CompilesFirst(f) {
      var es := [Pattern(LiteralText(args[0]))];
      assert args == [args[0]] && CompileArg(c, f, args).es == es;
      assert args[0].Const? && args[0].v.StrV?;
      assert es[1..] == args[1..] == [];
      assert ArgsTyped(SigOf(f), es, 1, es[1..]);
    }
  }

  lemma {:induction false} FoldAllSound(
      c: Compilers, w: World, s: FnSig, args: seq<Expr>, args': seq<Expr>, i: nat, rest: seq<Expr>,
      st: St, sig: Sig, g: Scope)
    requires ReadyAll(rest, g, w.levels) && StoreTyped(st, g)
    requires i <= |args| == |args'| && rest == args[i..] && FoldAll(c, rest).es == args'[i..]
    requires ArgsTyped(s, args, i, rest)
    requires FoldAll(c, rest).errors == 0
    ensures RefinesAll(EvalAll(w, rest, st, sig), EvalAll(w, args'[i..], st, sig))
    ensures ReadyAll(args'[i..], g, w.levels) && ArgsTyped(s, args', i, args'[i..])
    decreases Sizes(rest), |rest|
  {
    if rest != [] {
      var rest' := args'[i..];
      assert rest'[0] == FoldExpr(c, rest[0]).e && rest'[1..] == FoldAll(c, rest[1..]).es == args'[i + 1..];
      FoldSound(c, w, rest[0], st, sig, g);
      var a := Eval(w, rest[0], st, sig);
      FoldAllSound(c, w, s, args, args', i + 1, rest[1..], st, if a.Ok? then a.sig else sig, g);
    }
  }

  lemma CallFoldSound(w: World, f: Fn, args: seq<Expr>, args': seq<Expr>, dt: Type, st: St, sig: Sig, g: Scope)
    requires |args| == |args'| > 0 && !IsAction(f)
    requires RefinesAll(EvalAll(w, args, st, sig), EvalAll(w, args', st, sig))
    requires ReadyAll(args', g, w.levels) && ArgsTyped(SigOf(f), args', 0, args')
    ensures Refines(Eval(w, Call(f, args, dt), st, sig), Eval(w, FoldCall(f, args', dt), st, sig))
    ensures Ready(FoldCall(f, args', dt), g, w.levels)
    ensures TypeOf(FoldCall(f, args', dt)) == SigOf(f).ret.tval
  {
    CallCongruence(w, f, args, args', dt, st, sig);
    FoldCallSound(w, f, args', dt, st, sig, g);
  }

  lemma FoldCallSound(w: World, f: Fn, args: seq<Expr>, dt: Type, st: St, sig: Sig, g: Scope)
    requires |args| > 0 && !IsAction(f) && ReadyAll(args, g, w.levels) && ArgsTyped(SigOf(f), args, 0, args)
    ensures Eval(w, FoldCall(f, args, dt), st, sig) == Eval(w, Call(f, args, dt), st, sig)
    ensures Ready(FoldCall(f, args, dt), g, w.levels)
    ensures TypeOf(FoldCall(f, args, dt)) == SigOf(f).ret.tval
  {
    ReturnType(f);
    if IsText(f, args[0]) {
      assert args == [args[0]];
      assert Foldable(args[0], g, w.levels);
      TextFoldSound(w, f, args[0], dt, st, sig);
    } else {
      assert Foldable(Call(f, args, dt), g, w.levels);
    }
  }

  lemma CallCongruence(w: World, f: Fn, args: seq<Expr>, args': seq<Expr>, dt: Type, st: St, sig: Sig)
    requires RefinesAll(EvalAll(w, args, st, sig), EvalAll(w, args', st, sig))
    ensures Refines(Eval(w, Call(f, args, dt), st, sig), Eval(w, Call(f, args', dt), st, sig))
  {
  }

  predicate IsText(f: Fn, a: Expr) {
    (f == FString && IsConstant(a)) || (f == FLevelName && a.Level?)
  }

  // string of a constant, and levelname of a level, are known beforehand.
  lemma TextFoldSound(w: World, f: Fn, a: Expr, dt: Type, st: St, sig: Sig)
    requires IsText(f, a)
    requires a.Level? ==> 0 <= a.idx < |w.levels| && w.levels[a.idx].name == a.name
    ensures Eval(w, Call(f, [a], dt), st, sig) == Eval(w, FoldCall(f, [a], dt), st, sig)
  {
    assert [a][1..] == [];
    assert EvalAll(w, [a], st, sig) == Oks([ConstValue(a)], sig);
  }

  lemma UnConstSound(op: Op, r: Expr)
    requires op in {OpAdd, OpSub, OpCompl, OpLogNeg}
    requires IsConstant(r) ==> TypeOf(r) in {TVInt, TVBool} && IsCompatOp(TypeOf(r), op)
    ensures IsConstant(r) ==> ValueType(UnExpr(ConstValue(r), op)) == TypeOf(r)
  {
  }

  // A call without arguments of a function whose name ends in "in" or
  // "include" is folded to true.  Of the functions that can be called so,
  // it is right for all of them but topicin and subscribersinclude.
  lemma ZeroArgs(w: World, f: Fn, st: St, sig: Sig)
    requires IsIncludeName(f) && ArityOk(SigOf(f), 0) && f != FTopicIn && f != FSubscribersInclude
    ensures Refines(CallFn(w, f, [], st, sig), Ok(BoolV(true), sig))
  {
    assert StrFields([]) == [];
  }

  lemma ZeroArgsExact(f: Fn)
    requires IsIncludeName(f) && ArityOk(SigOf(f), 0)
    ensures (forall w: World, st, sig :: Refines(CallFn(w, f, [], st, sig), Ok(BoolV(true), sig)))
       <==> f != FTopicIn && f != FSubscribersInclude
  {
    var m := MsgCtx("/t", "T", [], ["/n"], [], []);
    var w := World([], Some(m), (f, vs, tr) => None, (tr, p, a) => false, (tr, a, b) => false);
    var st, sig := St(map[], 0, false, []), Sig(0, 0);
    assert StrFields([]) == [];
    if f == FTopicIn || f == FSubscribersInclude {
      assert "/n" in m.subscribers;
      assert CallFn(w, f, [], st, sig) == Ok(BoolV(false), sig);
      assert !Refines(CallFn(w, f, [], st, sig), Ok(BoolV(true), sig));
    } else {
      forall w: World, st, sig ensures Refines(CallFn(w, f, [], st, sig), Ok(BoolV(true), sig)) {
        ZeroArgs(w, f, st, sig);
      }
    }
  }

  // ----- where folding goes wrong -----

  function OtherValue(v: Value): (o: Value)
    ensures o != v && (v.UndefV? || ValueType(o) == ValueType(v))
  {
    match v
    case IntV(i) => IntV(if i == 0 then 1 else 0)
    case BoolV(b) => BoolV(!b)
    case StrV(s) => StrV(s + "x")
    case UndefV => IntV(0)
  }

  // A constant divided by zero is reported; a constant modulo zero is not, and
  // is replaced by its left operand.  No other fault of an operator on two
  // constants goes unreported.
  lemma ConstantFaultsExact(c: Compilers, w: World, op: Op, l: Expr, r: Expr, dt: Type, st: St, sig: Sig)
    requires IsConstant(l) && IsConstant(r)
    requires TypeOf(Bin(op, l, r, dt)) != TVUndef && dt.tval == TypeOf(Bin(op, l, r, dt))
    ensures
      var e, zero := Bin(op, l, r, dt), ConstValue(r) == IntV(0);
      var f := FoldExpr(c, e);
      && (f.errors > 0 <==> op == OpDiv && zero)
      && (f.errors == 0 && Eval(w, e, st, sig).Err? <==> op == OpMod && zero)
      && (op == OpMod && zero ==> f.e == Lit(ConstValue(l)))
  {
    var a, b := ConstValue(l), ConstValue(r);
    OpSound(a, b, op);
    assert Eval(w, l, st, sig) == Ok(a, sig) && Eval(w, r, st, sig) == Ok(b, sig);
    assert FoldExpr(c, l) == Folded(0, l) && FoldExpr(c, r) == Folded(0, r);
  }
}
