// The type checker (tree/type.go): annotation of expression nodes and the
// count of type errors, and what an error count of zero guarantees.
module TypeCheck {
  import opened Types
  import opened Syntax

  // What the checker asks its surroundings: the variables whose initial value
  // is a level (CurrLevel is one), and the files it can run or read.
  datatype Checks = Checks(levelVars: set<string>, executable: string -> bool, readable: string -> bool)

  function DataType(e: Expr): Type {
    match e
    case Const(_, v) => Type(ValueType(v), TEExpr)
    case Level(_, _) => INT_TYPE
    case Var(_, dt) => dt
    case Call(_, _, dt) => dt
    case Bin(_, _, _, dt) => dt
    case Un(_, _, dt) => dt
    case Pattern(_) => STRING_TYPE
  }

  function Poison(t: Type): Type {
    t.(texpr := TEUndef)
  }

  predicate ArityOk(s: FnSig, n: nat) {
    if s.variadic then |s.args| > 0 && n >= |s.args| - 1 else n == |s.args|
  }

  // The declared type of parameter i; the last one repeats.
  function ArgType(s: FnSig, i: nat, n: nat): Type
    requires ArityOk(s, n) && i < n
  {
    if i < |s.args| then s.args[i] else s.args[|s.args| - 1]
  }

  // An argument whose type does not fit its parameter loses it.
  function EffectiveType(dt: Type, at: Type): Type {
    if IsTypeCompat(dt, at) then dt else Poison(dt)
  }

  function Annotate(e: Expr): Expr
    decreases e
  {
    match e
    case Call(f, args, dt) =>
      var ret := SigOf(f).ret;
      if !ArityOk(SigOf(f), |args|) then Call(f, args, Poison(ret))
      else
        var args' := AnnotateAll(args);
        Call(f, args', if ArgsFit(SigOf(f), args', 0) && SetFits(f, args') then ret else Poison(ret))
    case Bin(op, l, r, dt) =>
      var l', r' := Annotate(l), Annotate(r);
      var lt, rt := DataType(l'), DataType(r');
      if !(IsTypeCompat(lt, rt) && IsCompatOp(lt.tval, op)) || IsTypeUndef(lt) || IsTypeUndef(rt) then
        Bin(op, l', r', Poison(dt))
      else
        Bin(op, l', r', if IsCompareOp(op) then lt.(tval := TVBool) else lt)
    case Un(op, r, dt) =>
      var r' := Annotate(r);
      var rt := OperandType(r, r');
      Un(op, r', if !IsCompatOp(rt.tval, op) || IsTypeUndef(rt) then Poison(dt) else rt)
    case _ => e
  }

  // A string operand loses its type before it is annotated.
  function OperandType(before: Expr, after: Expr): Type {
    if DataType(before).tval == TVString && (after.Const? || after.Var? || after.Pattern?)
    then Poison(DataType(after))
    else DataType(after)
  }

  function AnnotateAll(es: seq<Expr>): (r: seq<Expr>)
    ensures |r| == |es|
    decreases es
  {
    if es == [] then [] else [Annotate(es[0])] + AnnotateAll(es[1..])
  }

  predicate ArgsFit(s: FnSig, args: seq<Expr>, i: nat)
    requires ArityOk(s, |args|) && i <= |args|
    decreases |args| - i
  {
    i == |args| || (IsTypeCompat(DataType(args[i]), ArgType(s, i, |args|)) && ArgsFit(s, args, i + 1))
  }

  // The two arguments of set: a variable, and a value of its type.
  predicate SetFits(f: Fn, args: seq<Expr>)
    requires ArityOk(SigOf(f), |args|)
  {
    f == FSet ==>
      args[0].Var?
      && IsTypeCompat(EffectiveType(DataType(args[0]), UNIV_TYPE), EffectiveType(DataType(args[1]), UNIV_TYPE))
  }

  predicate IsLevelArg(k: Checks, e: Expr) {
    e.Level? || (e.Var? && e.name in k.levelVars)
  }

  // The text field of an argument symbol: only a string literal has one.
  function LiteralText(e: Expr): string {
    match e
    case Const(_, v) => StrField(v)
    case Pattern(s) => s
    case _ => ""
  }

  predicate FileOk(k: Checks, f: Fn, args: seq<Expr>)
    requires f in {FExec, FPlugin, FPayload} ==> |args| > 0
  {
    && (f == FExec || f == FPlugin ==> k.executable(LiteralText(args[0])))
    && (f == FPayload ==> k.readable(LiteralText(args[0])))
  }

  function Count(b: bool): nat {
    if b then 1 else 0
  }

  // The number of errors found in an annotated node whose type is dt, in a
  // section of type t.  A root node may be an action.
  function Errors(k: Checks, e: Expr, dt: Type, t: Type, root: bool): nat
    decreases e
  {
    var bad := IsTypeUndef(dt) || !IsTypeCompat(t, dt);
    match e
    case Const(_, _) => Count(!IsTypeCompat(t, dt))
    case Level(_, _) => 0
    case Pattern(_) => 0
    case Var(_, _) => Count(bad)
    case Call(f, args, _) =>
      var n := Count(IsAction(f) && !root);
      if !ArityOk(SigOf(f), |args|) then n + 1
      else
        var m := n + ArgErrors(k, SigOf(f), args, 0, args, t);
        if f == FSet && bad then m + 1
        else if f in {FTrigger, FLevelName} && (IsTypeUndef(dt) || !IsLevelArg(k, args[0])) then m + 1
        else m + Count(!FileOk(k, f, args)) + Count(bad)
    case Bin(_, l, r, _) =>
      Errors(k, l, DataType(l), t, false) + Errors(k, r, DataType(r), t, false) + Count(bad)
    case Un(_, r, _) =>
      Count(dt.tval == TVString) + Errors(k, r, DataType(r), t, false) + Count(bad)
  }

  // rest are the arguments of args from i on.
  function ArgErrors(k: Checks, s: FnSig, args: seq<Expr>, i: nat, rest: seq<Expr>, t: Type): nat
    requires ArityOk(s, |args|) && i <= |args| && rest == args[i..]
    decreases rest
  {
    if rest == [] then 0
    else
      var at := EffectiveType(DataType(rest[0]), ArgType(s, i, |args|));
      Errors(k, rest[0], at, t, false)
      + Count(IsTypeUndef(at) || !IsTypeCompat(t, at))
      + ArgErrors(k, s, args, i + 1, rest[1..], t)
  }

  // ----- the typing rules -----

  // The type of an expression, TVUndef when it has none.
  function TypeOf(e: Expr): TypeVal
    decreases e
  {
    match e
    case Const(_, v) => ValueType(v)
    case Level(_, _) => TVInt
    case Pattern(_) => TVString
    case Var(_, dt) => if dt.texpr == TEExpr then dt.tval else TVUndef
    case Call(f, args, _) => if !IsAction(f) && ArgsTyped(SigOf(f), args, 0, args) then SigOf(f).ret.tval else TVUndef
    case Bin(op, l, r, _) =>
      var t := TypeOf(l);
      if t == TypeOf(r) && t != TVUndef && IsCompatOp(t, op) then (if IsCompareOp(op) then TVBool else t)
      else TVUndef
    case Un(op, r, _) =>
      var t := TypeOf(r);
      if t != TVString && IsCompatOp(t, op) then t else TVUndef
  }

  predicate ArgsTyped(s: FnSig, args: seq<Expr>, i: nat, rest: seq<Expr>)
    requires i <= |args| && rest == args[i..]
    decreases rest
  {
    ArityOk(s, |args|) &&
    (rest == [] ||
      (ArgTyped(s, args, i, TypeOf(rest[0])) && ArgsTyped(s, args, i + 1, rest[1..])))
  }

  predicate ArgTyped(s: FnSig, args: seq<Expr>, i: nat, t: TypeVal)
    requires ArityOk(s, |args|) && i < |args|
  {
    t != TVUndef && IsTypeValCompat(t, ArgType(s, i, |args|).tval)
  }

  // The rule for the root of an action.
  predicate ActionTyped(e: Expr) {
    && e.Call? && IsAction(e.fn) && ArgsTyped(SigOf(e.fn), e.args, 0, e.args)
    && (e.fn == FSet ==> e.args[0].Var? && TypeOf(e.args[0]) == TypeOf(e.args[1]))
  }

  // The demands that are not about types: levelname and trigger want a level,
  // some functions want a file.
  predicate Specials(k: Checks, e: Expr)
    decreases e
  {
    match e
    case Call(f, args, _) =>
      && (ArityOk(SigOf(f), |args|) ==>
            && (f in {FTrigger, FLevelName} ==> IsLevelArg(k, args[0]))
            && FileOk(k, f, args))
      && SpecialsAll(k, args)
    case Bin(_, l, r, _) => Specials(k, l) && Specials(k, r)
    case Un(_, r, _) => Specials(k, r)
    case _ => true
  }

  predicate SpecialsAll(k: Checks, es: seq<Expr>)
    decreases es
  {
    es == [] || (Specials(k, es[0]) && SpecialsAll(k, es[1..]))
  }

  // Trees as the parser builds them: variables carry their declared type,
  // literals have a type, nodes are not annotated yet, and the unary
  // operators are + - ~ and !.
  type Scope = map<string, TypeVal>

  predicate ScopeOk(g: Scope) {
    forall x | x in g :: g[x] in {TVInt, TVBool, TVString}
  }

  const FRESH_TYPE := Type(TVUndef, TEExpr)

  predicate Parsed(e: Expr, g: Scope)
    decreases e
  {
    match e
    case Const(_, v) => !v.UndefV?
    case Var(x, dt) => x in g && dt == Type(g[x], TEExpr)
    case Call(_, args, dt) => dt == FRESH_TYPE && ParsedAll(args, g)
    case Bin(_, l, r, dt) => dt == FRESH_TYPE && Parsed(l, g) && Parsed(r, g)
    case Un(op, r, dt) => dt == FRESH_TYPE && op in {OpAdd, OpSub, OpCompl, OpLogNeg} && Parsed(r, g)
    case _ => true
  }

  predicate ParsedAll(es: seq<Expr>, g: Scope)
    decreases es
  {
    es == [] || (Parsed(es[0], g) && ParsedAll(es[1..], g))
  }

  // The same, once annotated: every operator node knows its type.
  predicate Annotated(e: Expr, g: Scope)
    decreases e
  {
    match e
    case Const(_, v) => !v.UndefV?
    case Var(x, dt) => x in g && dt == Type(g[x], TEExpr)
    case Call(_, args, _) => AnnotatedAll(args, g)
    case Bin(op, l, r, dt) => Annotated(l, g) && Annotated(r, g) && dt.tval == TypeOf(e)
    case Un(op, r, dt) => op in {OpAdd, OpSub, OpCompl, OpLogNeg} && Annotated(r, g)
    case _ => true
  }

  predicate AnnotatedAll(es: seq<Expr>, g: Scope)
    decreases es
  {
    es == [] || (Annotated(es[0], g) && AnnotatedAll(es[1..], g))
  }

  // ----- annotation computes the type -----

  predicate InSection(t: Type) {
    t.tval == TVUniv
  }

  lemma {:induction false} AnnotateKeeps(k: Checks, e: Expr)
    ensures TypeOf(Annotate(e)) == TypeOf(e)
    ensures Specials(k, Annotate(e)) == Specials(k, e)
    ensures Annotate(e).Var? == e.Var? && IsLevelArg(k, Annotate(e)) == IsLevelArg(k, e)
    ensures LiteralText(Annotate(e)) == LiteralText(e)
    decreases e
  {
    match e
    case Call(f, args, dt) =>
      if ArityOk(SigOf(f), |args|) {
        AnnotateAllKeeps(k, SigOf(f), args, AnnotateAll(args), 0, args);
        if |args| > 0 { AnnotateKeeps(k, args[0]); }
      }
    case Bin(op, l, r, dt) =>
      AnnotateKeeps(k, l);
      AnnotateKeeps(k, r);
    case Un(op, r, dt) =>
      AnnotateKeeps(k, r);
    case _ =>
  }

  lemma {:induction false} AnnotateAllKeeps(
      k: Checks, s: FnSig, args: seq<Expr>, args': seq<Expr>, i: nat, rest: seq<Expr>)
    requires i <= |args| == |args'| && rest == args[i..] && AnnotateAll(rest) == args'[i..]
    ensures ArgsTyped(s, args', i, args'[i..]) == ArgsTyped(s, args, i, rest)
    ensures SpecialsAll(k, args'[i..]) == SpecialsAll(k, rest)
    decreases rest
  {
    if rest != [] {
      AnnotateKeeps(k, rest[0]);
      assert AnnotateAll(rest)[1..] == AnnotateAll(rest[1..]);
      AnnotateAllKeeps(k, s, args, args', i + 1, rest[1..]);
    }
  }

  // Typed expressions get exactly their type, and every operator node in them
  // is annotated with its own.
  lemma {:induction false} AnnotateTyped(e: Expr, g: Scope)
    requires ScopeOk(g) && Parsed(e, g) && TypeOf(e) != TVUndef
    ensures DataType(Annotate(e)) == Type(TypeOf(e), TEExpr)
    ensures Annotated(Annotate(e), g)
    ensures TypeOf(e) in {TVInt, TVBool, TVString}
    decreases e
  {
    AnnotateKeeps(Checks({}, x => true, x => true), e);
    match e
    case Call(f, args, dt) =>
      AnnotateAllTyped(SigOf(f), args, AnnotateAll(args), 0, args, g);
    case Bin(op, l, r, dt) =>
      AnnotateTyped(l, g);
      AnnotateTyped(r, g);
    case Un(op, r, dt) =>
      AnnotateTyped(r, g);
    case _ =>
  }

  lemma {:induction false} AnnotateAllTyped(
      s: FnSig, args: seq<Expr>, args': seq<Expr>, i: nat, rest: seq<Expr>, g: Scope)
    requires ScopeOk(g) && ParsedAll(rest, g)
    requires i <= |args| == |args'| && rest == args[i..] && AnnotateAll(rest) == args'[i..]
    requires ArgsTyped(s, args, i, rest)
    ensures ArgsFit(s, args', i)
    ensures AnnotatedAll(args'[i..], g)
    ensures forall j | i <= j < |args| :: DataType(args'[j]) == Type(TypeOf(args[j]), TEExpr)
    decreases rest
  {
    if rest != [] {
      AnnotateTyped(rest[0], g);
      assert AnnotateAll(rest)[1..] == AnnotateAll(rest[1..]);
      AnnotateAllTyped(s, args, args', i + 1, rest[1..], g);
    }
  }

  // ----- no errors means typed, and conversely -----

  lemma {:induction false} ErrorsExact(k: Checks, e: Expr, g: Scope, t: Type)
    requires ScopeOk(g) && Parsed(e, g) && InSection(t)
    ensures Errors(k, Annotate(e), DataType(Annotate(e)), t, false) == 0
       <==> TypeOf(e) != TVUndef && Specials(k, e)
    decreases e, 1
  {
    if TypeOf(e) != TVUndef { AnnotateTyped(e, g); }
    match e
    case Call(f, args, dt) =>
      CallErrorsExact(k, e, g, t, false);
    case Bin(op, l, r, dt) =>
      ErrorsExact(k, l, g, t);
      ErrorsExact(k, r, g, t);
      BinErrorsExact(k, op, l, r, dt, g, t);
    case Un(op, r, dt) =>
      ErrorsExact(k, r, g, t);
      if TypeOf(r) != TVUndef { AnnotateTyped(r, g); }
    case _ =>
  }

  // No error is found in an expression.
  predicate Clean(k: Checks, e: Expr, t: Type) {
    Errors(k, Annotate(e), DataType(Annotate(e)), t, false) == 0
  }

  lemma BinErrorsExact(k: Checks, op: Op, l: Expr, r: Expr, dt: Type, g: Scope, t: Type)
    requires ScopeOk(g) && Parsed(Bin(op, l, r, dt), g) && InSection(t)
    requires Clean(k, l, t) <==> TypeOf(l) != TVUndef && Specials(k, l)
    requires Clean(k, r, t) <==> TypeOf(r) != TVUndef && Specials(k, r)
    ensures Clean(k, Bin(op, l, r, dt), t) <==> TypeOf(Bin(op, l, r, dt)) != TVUndef && Specials(k, Bin(op, l, r, dt))
  {
    var e := Bin(op, l, r, dt);
    if TypeOf(e) != TVUndef { AnnotateTyped(e, g); }
    if TypeOf(l) != TVUndef { AnnotateTyped(l, g); }
    if TypeOf(r) != TVUndef { AnnotateTyped(r, g); }
  }

  lemma {:induction false} CallErrorsExact(k: Checks, e: Expr, g: Scope, t: Type, root: bool)
    requires ScopeOk(g) && e.Call? && ParsedAll(e.args, g) && InSection(t)
    ensures Errors(k, Annotate(e), DataType(Annotate(e)), t, root) == 0
       <==> (IsAction(e.fn) ==> root) && ArgsTyped(SigOf(e.fn), e.args, 0, e.args)
            && (e.fn == FSet ==> e.args[0].Var? && TypeOf(e.args[0]) == TypeOf(e.args[1]))
            && Specials(k, e)
    decreases e, 0
  {
    var f, args := e.fn, e.args;
    if ArityOk(SigOf(f), |args|) {
      var args' := AnnotateAll(args);
      ArgErrorsExact(k, SigOf(f), args, args', 0, args, g, t);
      assert args[0..] == args && args'[0..] == args';
      if |args| > 0 { AnnotateKeeps(k, args[0]); }
      if ArgsTyped(SigOf(f), args, 0, args) {
        AnnotateAllTyped(SigOf(f), args, args', 0, args, g);
        SetFitsExact(f, args, g);
        CallTypeExact(e);
      }
    }
  }

  lemma SetFitsExact(f: Fn, args: seq<Expr>, g: Scope)
    requires ScopeOk(g) && ParsedAll(args, g) && ArgsTyped(SigOf(f), args, 0, args)
    ensures SetFits(f, AnnotateAll(args))
       <==> (f == FSet ==> args[0].Var? && TypeOf(args[0]) == TypeOf(args[1]))
  {
    if f == FSet {
      assert args == [args[0], args[1]];
      assert args[1..] == [args[1]];
      assert ArgsTyped(SigOf(f), args, 1, args[1..]);
      AnnotateTyped(args[0], g);
      AnnotateTyped(args[1], g);
      AnnotateKeeps(Checks({}, x => true, x => true), args[0]);
      assert AnnotateAll(args) == [Annotate(args[0]), Annotate(args[1])] by {
        assert AnnotateAll(args[1..]) == [Annotate(args[1])];
      }
    }
  }

  // The type left in a call node.
  lemma CallTypeExact(e: Expr)
    requires e.Call? && ArityOk(SigOf(e.fn), |e.args|)
    ensures
      var args' := AnnotateAll(e.args);
      IsTypeUndef(DataType(Annotate(e))) <==> !(ArgsFit(SigOf(e.fn), args', 0) && SetFits(e.fn, args'))
    ensures DataType(Annotate(e)).tval in {TVBool, TVString} && DataType(Annotate(e)).texpr in {TEExpr, TEUndef}
  {
  }

  lemma {:induction false} ArgErrorsExact(
      k: Checks, s: FnSig, args: seq<Expr>, args': seq<Expr>, i: nat, rest: seq<Expr>, g: Scope, t: Type)
    requires ScopeOk(g) && ParsedAll(rest, g) && InSection(t) && ArityOk(s, |args|)
    requires i <= |args| == |args'| && rest == args[i..] && AnnotateAll(rest) == args'[i..]
    ensures ArgErrors(k, s, args', i, args'[i..], t) == 0
       <==> ArgsTyped(s, args, i, rest) && SpecialsAll(k, rest)
    decreases rest
  {
    if rest != [] {
      var rest' := args'[i..];
      assert rest'[0] == Annotate(rest[0]) && rest'[1..] == AnnotateAll(rest[1..]) == args'[i + 1..];
      ArgErrorExact(k, rest[0], ArgType(s, i, |args|), g, t);
      ArgErrorsExact(k, s, args, args', i + 1, rest[1..], g, t);
    }
  }

  // One argument contributes no error when it has a type that fits at.
  lemma {:induction false} ArgErrorExact(k: Checks, a: Expr, at: Type, g: Scope, t: Type)
    requires ScopeOk(g) && Parsed(a, g) && InSection(t)
    ensures
      var dt := EffectiveType(DataType(Annotate(a)), at);
      Errors(k, Annotate(a), dt, t, false) == 0 && !IsTypeUndef(dt) && IsTypeCompat(t, dt)
      <==> TypeOf(a) != TVUndef && IsTypeValCompat(TypeOf(a), at.tval) && Specials(k, a)
    decreases a, 2
  {
    ErrorsExact(k, a, g, t);
    if TypeOf(a) != TVUndef { AnnotateTyped(a, g); }
  }
}
