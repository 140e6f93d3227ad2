// The interpreter as it runs: variables point to symbols, CurrLevel points to
// a level symbol of the program, and the clock is written through pointers
// (tree/eval.go, tree/interp.go, tree/vars.go, tree/builtins.go).  Every
// method is proved to do what the functions of Semantics say.
module Runtime {
  import opened Wrappers
  import opened Types
  import opened Int64
  import opened Syntax
  import opened Semantics
  import opened TypeCheck
  import opened Soundness
  import opened Cells
  import opened Fold

  // A variable: a symbol whose value is another symbol.
  class Var {
    var val: Sym

    constructor (s: Sym)
      ensures val == s
    {
      val := s;
    }
  }

  datatype Out = Got(s: Sym) | Failed(fault: Fault)

  // How an action, and how a run, ends.
  datatype ActOut = Ran(success: bool) | ActCrashed | ActFailed(fault: Fault)

  datatype RunOut = Finished | Crashed | RunFailed(fault: Fault)

  // Actions the methods below run: checked, with levels of the program, and
  // not setting a predefined variable.
  ghost predicate ActionOk(e: Expr, g: Scope, decls: seq<LevelDecl>) {
    && ScopeOk(g) && ActSafe(e, g) && LinkedAll(e.args, decls)
    && (e.fn == FSet ==> e.args[0].name !in BUILTIN_VARS)
  }

  ghost predicate RuleOk(r: Rule, g: Scope, decls: seq<LevelDecl>) {
    Checked(r.expr, g, decls) && TypeOf(r.expr) == TVBool && ActionsOk(r.acts, g, decls)
  }

  ghost predicate SectionsOk(ss: seq<Section>, g: Scope, decls: seq<LevelDecl>) {
    && ScopeOk(g) && (TIME in g ==> g[TIME] == TVInt) && (UPTIME in g ==> g[UPTIME] == TVInt)
    && forall k | 0 <= k < |ss| :: RulesOk(ss[k].rules, g, decls)
  }

  ghost predicate RulesOk(rules: seq<Rule>, g: Scope, decls: seq<LevelDecl>) {
    forall k | 0 <= k < |rules| :: RuleOk(rules[k], g, decls)
  }

  ghost predicate ActionsOk(acts: seq<Act>, g: Scope, decls: seq<LevelDecl>) {
    forall k | 0 <= k < |acts| :: ActionOk(acts[k].what, g, decls)
  }

  lemma OkIsSafe(r: Rule, g: Scope, decls: seq<LevelDecl>)
    requires RuleOk(r, g, decls)
    ensures RuleSafe(r, g)
  {
    forall a | a in r.acts ensures ActSafe(a.what, g) {
      var k :| 0 <= k < |r.acts| && r.acts[k] == a;
      assert ActionOk(r.acts[k].what, g, decls);
    }
  }

  lemma AllOkIsSafe(ss: seq<Section>, g: Scope, decls: seq<LevelDecl>)
    requires SectionsOk(ss, g, decls)
    ensures ProgSafe(ss, g)
  {
    forall s, r | s in ss && r in s.rules ensures RuleSafe(r, g) {
      var k :| 0 <= k < |ss| && ss[k] == s;
      assert RulesOk(s.rules, g, decls);
      var j :| 0 <= j < |s.rules| && s.rules[j] == r;
      OkIsSafe(r, g, decls);
    }
  }

  // Level constants in an expression are levels of the program.
  predicate Linked(e: Expr, decls: seq<LevelDecl>)
    decreases e
  {
    match e
    case Level(n, i) => 0 <= i < |decls| && decls[i].name == n
    case Call(_, args, _) => LinkedAll(args, decls)
    case Bin(_, l, r, _) => Linked(l, decls) && Linked(r, decls)
    case Un(_, r, _) => Linked(r, decls)
    case _ => true
  }

  predicate LinkedAll(es: seq<Expr>, decls: seq<LevelDecl>)
    decreases es
  {
    es == [] || (Linked(es[0], decls) && LinkedAll(es[1..], decls))
  }

  // What evaluation may rely on: the checker has accepted the expression.
  ghost predicate Checked(e: Expr, g: Scope, decls: seq<LevelDecl>) {
    ScopeOk(g) && Annotated(e, g) && TypeOf(e) != TVUndef && Linked(e, decls)
  }

  ghost predicate CheckedAll(es: seq<Expr>, g: Scope, decls: seq<LevelDecl>) {
    forall k | 0 <= k < |es| :: Checked(es[k], g, decls)
  }

  function InitialVars(declared: map<string, Value>): map<string, Value> {
    declared[CURR_LEVEL := IntV(-1)][TIME := IntV(0)][UPTIME := IntV(0)]
  }

  // The symbol of the i-th level.
  ghost predicate IsLevel(s: Sym, d: LevelDecl, i: nat)
    reads s
  {
    && s.isLevel && s.Clean() && s.tval == TVInt && s.intVal as int == i && s.slevel as int == i
    && s.name == d.name && s.soft == d.soft
  }

  // Levels are numbered in the order of their declaration.
  method NewLevels(ds: seq<LevelDecl>) returns (ls: seq<Sym>)
    requires |ds| < TWO63
    ensures |ls| == |ds| && fresh(ls) && forall i | 0 <= i < |ds| :: IsLevel(ls[i], ds[i], i)
  {
    ls := [];
    for i := 0 to |ds|
      invariant |ls| == i && fresh(ls)
      invariant forall k | 0 <= k < i :: IsLevel(ls[k], ds[k], k)
    {
      var s := new Sym();
      s.name, s.isLevel, s.tval, s.soft, s.intVal, s.slevel := ds[i].name, true, TVInt, ds[i].soft, i, i;
      ls := ls + [s];
    }
  }

  // A new variable for every name, with a symbol of its own.
  method NewVars(bindings: map<string, Value>) returns (vs: map<string, Var>)
    ensures vs.Keys == bindings.Keys
    ensures forall x | x in vs ::
      fresh(vs[x]) && fresh(vs[x].val) && vs[x].val.Clean() && vs[x].val.Val() == bindings[x]
    ensures forall x, y | x in vs && y in vs && x != y :: vs[x] != vs[y] && vs[x].val != vs[y].val
  {
    vs := map[];
    var todo := bindings.Keys;
    while todo != {}
      invariant todo <= bindings.Keys && vs.Keys == bindings.Keys - todo
      invariant forall x | x in vs ::
        fresh(vs[x]) && fresh(vs[x].val) && vs[x].val.Clean() && vs[x].val.Val() == bindings[x]
      invariant forall x, y | x in vs && y in vs && x != y :: vs[x] != vs[y] && vs[x].val != vs[y].val
    {
      var x :| x in todo;
      var s := Literal(bindings[x]);
      var v := new Var(s);
      vs, todo := vs[x := v], todo - {x};
    }
  }

  method Literal(v: Value) returns (s: Sym)
    ensures fresh(s) && s.Val() == v && s.Clean()
  {
    s := new Sym();
    match v
    case IntV(i) => s.tval, s.intVal := TVInt, i;
    case BoolV(b) => s.SetBool(b);
    case StrV(t) => s.SetString(t);
    case UndefV =>
  }

  function Join(vs: seq<Value>, r: ResSeq): ResSeq {
    if r.Oks? then Oks(vs + r.vs, r.sig) else r
  }

  class Machine {
    const vars: map<string, Var>
    const levels: seq<Sym>
    const decls: seq<LevelDecl>
    ghost const index: map<string, int>
    var ctxLevel: int64
    var init: bool
    var trace: seq<Event>
    var usr1: nat
    var usr2: nat

    // The environment a program starts in: its levels, its variables with
    // their initial values, and the predefined ones.
    constructor (ds: seq<LevelDecl>, declared: map<string, Value>)
      requires 0 < |ds| < TWO63 && forall i, j | 0 <= i < j < |ds| :: ds[i].name != ds[j].name
      requires declared.Keys !! BUILTIN_VARS
      ensures ctxLevel < 0 && decls == ds && Signals() == Sig(0, 0)
      ensures Start() == Some(St(declared[TIME := IntV(0)][UPTIME := IntV(0)], 0, false, []))
    {
      var ls := NewLevels(ds);
      var vs := NewVars(InitialVars(declared));
      assert forall x | x in vs :: vs[x].val !in ls;
      levels, vars, decls, ctxLevel := ls, vs, ds, -1;
      index := map i | 0 <= i < |ds| :: ds[i].name := i;
      init, trace, usr1, usr2 := false, [], 0, 0;
      new;
      assert forall i | 0 <= i < |ds| :: LevelOk(i);
      StartsAt(declared);
    }

    lemma StartsAt(declared: map<string, Value>)
      requires 0 < |levels| == |decls| < TWO63 && ctxLevel < 0 && !init && trace == []
      requires forall i | 0 <= i < |decls| :: LevelOk(i)
      requires declared.Keys !! BUILTIN_VARS && vars.Keys == InitialVars(declared).Keys
      requires forall x | x in vars ::
        vars[x].val.Clean() && vars[x].val.Val() == InitialVars(declared)[x] && vars[x].val !in levels
      requires forall x, y | x in vars && y in vars && x != y :: vars[x] != vars[y] && vars[x].val != vars[y].val
      ensures Start() == Some(St(declared[TIME := IntV(0)][UPTIME := IntV(0)], 0, false, []))
    {
      assert Booting();
      assert Store() == declared[TIME := IntV(0)][UPTIME := IntV(0)];
    }

    // The heap: variables are distinct objects, and a symbol is the value of
    // two of them only if it is a level; levels keep their own index and have
    // names of their own; Time and Uptime, which are written in place, are not
    // levels.
    ghost predicate Shape()
      reads vars.Values, levels, set v | v in vars.Values :: v.val
    {
      && BUILTIN_VARS <= vars.Keys
      && |levels| == |decls| < TWO63
      && (forall i | 0 <= i < |levels| :: LevelOk(i))
      && (forall x | x in vars :: vars[x].val.Clean())
      && (forall x, y | x in vars && y in vars && x != y :: vars[x] != vars[y])
      && (forall x, y | x in vars && y in vars && x != y && vars[x].val == vars[y].val :: vars[x].val in levels)
      && vars[TIME].val !in levels && vars[UPTIME].val !in levels
      && vars[TIME].val.tval == TVInt && vars[UPTIME].val.tval == TVInt
    }

    ghost predicate LevelOk(i: nat)
      requires i < |levels| && |levels| == |decls|
      reads levels[i]
    {
      IsLevel(levels[i], decls[i], i) && decls[i].name in index && index[decls[i].name] == i
    }

    // The level of the context is the level CurrLevel points to.
    ghost predicate Agreement()
      reads this`ctxLevel, vars.Values, levels
    {
      && CURR_LEVEL in vars && vars[CURR_LEVEL].val in levels
      && vars[CURR_LEVEL].val.slevel == ctxLevel
    }

    ghost predicate Valid()
      reads this`ctxLevel, vars.Values, levels, set v | v in vars.Values :: v.val
    {
      Shape() && Agreement()
    }

    // The variables that a rule can point elsewhere.
    ghost function Settable(): set<Var> {
      set x | x in vars && x !in {TIME, UPTIME} :: vars[x]
    }

    ghost function Store(): map<string, Value>
      reads vars.Values, set v | v in vars.Values :: v.val
    {
      map x | x in vars && x != CURR_LEVEL :: vars[x].val.Val()
    }

    ghost function Abs(): St
      reads this`ctxLevel, this`init, this`trace, vars.Values, set v | v in vars.Values :: v.val
    {
      St(Store(), ctxLevel, init, trace)
    }

    // The state the heap stands for, if it is in order.
    ghost function View(): Option<St>
      reads this`ctxLevel, this`init, this`trace, vars.Values, levels, set v | v in vars.Values :: v.val
    {
      if Valid() then Some(Abs()) else None
    }

    ghost function Signals(): Sig
      reads this`usr1, this`usr2
    {
      Sig(usr1, usr2)
    }

    // The value of an answer, or the fault.
    ghost function Answer(r: Out): Res
      reads this`usr1, this`usr2, if r.Got? then {r.s} else {}
    {
      if r.Got? then Ok(r.s.Val(), Signals()) else Err(r.fault)
    }

    // The symbol of an expression's value is a new one, or a level itself.
    method EvalExpr(w: World, e: Expr, ghost st: St, ghost sig: Sig, ghost g: Scope) returns (r: Out)
      requires View() == Some(st) && Signals() == sig && w.levels == decls && Checked(e, g, decls) && StoreTyped(st, g)
      modifies this`usr1, this`usr2
      ensures Answer(r) == Eval(w, e, st, sig)
      ensures r.Got? ==> r.s.Clean() && (fresh(r.s) || r.s in levels)
      decreases e, 1
    {
      match e
      case Const(_, v) =>
        var val := Literal(v);
        r := Got(val);
      case Pattern(s) =>
        var val := Literal(StrV(s));
        r := Got(val);
      case Level(_, i) =>
        assert LevelOk(i);
        r := Got(levels[i]);
      case Var(x, _) =>
        var val := ReadVariable(x, st, g);
        r := Got(val);
      case Un(op, right, _) =>
        ValueTyped(w, right, st, sig, g);
        r := EvalExpr(w, right, st, sig, g);
        if r.Got? {
          var val := Negate(r.s, op);
          r := Got(val);
        }
      case Bin(op, l, right, _) =>
        r := EvalBinary(w, e, op, l, right, st, sig, g);
      case Call(f, args, _) =>
        r := EvalCall(w, e, f, args, st, sig, g);
    }

    // A variable is read by copying the symbol it points to.
    method ReadVariable(x: string, ghost st: St, ghost g: Scope) returns (val: Sym)
      requires View() == Some(st) && StoreTyped(st, g) && x in g
      ensures fresh(val) && val.Clean() && Semantics.ReadVar(x, st) == Some(val.Val())
    {
      assert x in vars by { if x != CURR_LEVEL { assert x in st.vars; } }
      val := new Sym();
      val.CopyAll(vars[x].val);
      if x == CURR_LEVEL {
        ghost var i :| 0 <= i < |levels| && levels[i] == vars[x].val;
        assert LevelOk(i);
      }
    }

    method Negate(s: Sym, op: Op) returns (val: Sym)
      requires s.Clean() && op in {OpAdd, OpSub, OpCompl, OpLogNeg} && IsCompatOp(s.tval, op)
      ensures fresh(val) && val.Clean() && val.Val() == UnExpr(s.Val(), op)
    {
      val := new Sym();
      val.CopyValFrom(s);
      val.UnaryExpr(op);
    }

    method EvalBinary(
        w: World, ghost e: Expr, op: Op, l: Expr, right: Expr, ghost st: St, ghost sig: Sig, ghost g: Scope)
      returns (r: Out)
      requires View() == Some(st) && Signals() == sig && w.levels == decls && Checked(e, g, decls) && StoreTyped(st, g)
      requires e.Bin? && e.op == op && e.left == l && e.right == right
      modifies this`usr1, this`usr2
      ensures Answer(r) == Eval(w, e, st, sig)
      ensures r.Got? ==> r.s.Clean() && (fresh(r.s) || r.s in levels)
      decreases e, 0
    {
      Operands(e, g);
      hide Eval, TypeOf, Rest;
      ValueTyped(w, l, st, sig, g);
      BinarySpec(w, e, st, sig);
      r := EvalExpr(w, l, st, sig, g);
      if r.Got? { r := AfterLeft(w, op, r.s, r.s.Val(), right, st, Signals(), g); }
    }

    // The value of the left operand may decide, else the right one is needed.
    method AfterLeft(
        w: World, op: Op, s: Sym, ghost a: Value, right: Expr, ghost st: St, ghost sig: Sig, ghost g: Scope)
      returns (r: Out)
      requires View() == Some(st) && Signals() == sig && w.levels == decls
      requires Checked(right, g, decls) && StoreTyped(st, g)
      requires s.Clean() && s.Val() == a && ValueType(a) == TypeOf(right) && IsCompatOp(TypeOf(right), op)
      modifies this`usr1, this`usr2
      ensures Answer(r) == if IsShort(op, a) then Ok(a, sig) else Rest(w, op, a, right, st, sig)
      ensures r.Got? ==> r.s.Clean() && fresh(r.s)
      decreases right, 3
    {
      var val := CopyOf(s);
      if (op == OpLogOr && val.boolVal) || (op == OpLogAnd && !val.boolVal) {
        r := Got(val);
      } else {
        r := EvalRight(w, op, val, a, right, st, sig, g);
      }
    }

    lemma Operands(e: Expr, g: Scope)
      requires e.Bin? && Checked(e, g, decls)
      ensures Checked(e.left, g, decls) && Checked(e.right, g, decls)
      ensures TypeOf(e.left) == TypeOf(e.right) && IsCompatOp(TypeOf(e.right), e.op)
    {
    }

    method CopyOf(s: Sym) returns (val: Sym)
      requires s.Clean()
      ensures fresh(val) && val.Clean() && val.Val() == s.Val() && val.boolVal == BoolField(val.Val())
    {
      val := new Sym();
      val.CopyValFrom(s);
    }

    // The right operand, and the operator.
    method EvalRight(
        w: World, op: Op, val: Sym, ghost a: Value, right: Expr, ghost st: St, ghost sig: Sig, ghost g: Scope)
      returns (r: Out)
      requires View() == Some(st) && Signals() == sig && w.levels == decls
      requires Checked(right, g, decls) && StoreTyped(st, g)
      requires val.Clean() && val !in levels && val.Val() == a
      requires ValueType(a) == TypeOf(right) && IsCompatOp(TypeOf(right), op)
      modifies this`usr1, this`usr2, val
      ensures r.Got? ==> r.s == val && val.Clean()
      ensures Answer(r) == Rest(w, op, a, right, st, sig)
      decreases right, 2
    {
      hide Eval, TypeOf, Combined;
      ValueTyped(w, right, st, sig, g);
      r := EvalExpr(w, right, st, sig, g);
      assert r.Got? ==> r.s != val && ValueType(r.s.Val()) == TypeOf(right);
      assert val.Val() == a && val.Clean();
      r := Combine(op, val, r);
    }

    // The operator on the symbol and an answer; a fault stays.
    method Combine(op: Op, val: Sym, right: Out) returns (r: Out)
      requires val.Clean() && (right.Got? ==> val != right.s && right.s.Clean())
      requires right.Got? ==> ValueType(val.Val()) == ValueType(right.s.Val()) != TVUndef
      requires IsCompatOp(ValueType(val.Val()), op)
      modifies val
      ensures r.Got? ==> r.s == val && val.Clean()
      ensures Answer(r) == Combined(op, old(val.Val()), old(Answer(right)))
    {
      if right.Failed? { return right; }
      var err := Apply(op, val, right.s);
      r := if err.Some? then Failed(err.value) else Got(val);
    }

    // The operator, and the type of a comparison.
    static method Apply(op: Op, val: Sym, right: Sym) returns (err: Option<Fault>)
      requires val != right && val.Clean() && right.Clean()
      requires ValueType(val.Val()) == ValueType(right.Val()) != TVUndef && IsCompatOp(ValueType(val.Val()), op)
      modifies val
      ensures
        var c := BinExpr(old(val.Val()), right.Val(), op);
        err == c.err && (err.None? ==> val.Val() == c.v && val.Clean())
    {
      OpSound(val.Val(), right.Val(), op);
      err := val.BinExpr(right, op);
      if err.None? && IsCompareOp(op) { val.tval := TVBool; }
    }

    lemma BinarySpec(w: World, e: Expr, st: St, sig: Sig)
      requires e.Bin?
      ensures Eval(w, e, st, sig) ==
        var a := Eval(w, e.left, st, sig);
        if a.Err? || IsShort(e.op, a.v) then a else Rest(w, e.op, a.v, e.right, st, a.sig)
    {
    }

    ghost function Rest(w: World, op: Op, a: Value, right: Expr, st: St, sig: Sig): Res {
      Combined(op, a, Eval(w, right, st, sig))
    }

    ghost function Combined(op: Op, a: Value, b: Res): Res {
      if b.Err? then b
      else
        var c := BinExpr(a, b.v, op);
        if c.err.Some? then Err(c.err.value) else Ok(c.v, b.sig)
    }

    // Arguments from left to right; a fault ends the evaluation.
    method EvalArgs(w: World, es: seq<Expr>, ghost st: St, ghost sig: Sig, ghost g: Scope)
      returns (args: seq<Sym>, fault: Option<Fault>)
      requires View() == Some(st) && Signals() == sig && w.levels == decls
      requires CheckedAll(es, g, decls) && StoreTyped(st, g)
      modifies this`usr1, this`usr2
      ensures
        match EvalAll(w, es, st, sig)
        case Oks(vs, sig') =>
          fault == None && |args| == |es| && Signals() == sig' && forall k | 0 <= k < |es| :: args[k].Val() == vs[k]
        case Errs(f) => fault == Some(f)
      decreases es, 2
    {
      args, fault := [], None;
      ghost var vs: seq<Value>, now := [], sig;
      var i := 0;
      assert es[0..] == es;
      while i < |es|
        invariant 0 <= i <= |es| && |args| == |vs| == i
        invariant forall k | 0 <= k < i :: args[k].Val() == vs[k] && (fresh(args[k]) || args[k] in levels)
        invariant Signals() == now && EvalAll(w, es, st, sig) == Join(vs, EvalAll(w, es[i..], st, now))
      {
        ghost var r := Eval(w, es[i], st, now);
        EvalAllStep(w, es, i, vs, st, now);
        var a := EvalExpr(w, es[i], st, now, g);
        if a.Failed? {
          fault := Some(a.fault);
          return;
        }
        args, vs, now, i := args + [a.s], vs + [r.v], r.sig, i + 1;
      }
      assert es[i..] == [];
    }

    lemma EvalAllStep(w: World, es: seq<Expr>, i: nat, vs: seq<Value>, st: St, sig: Sig)
      requires i < |es|
      ensures
        var a := Eval(w, es[i], st, sig);
        Join(vs, EvalAll(w, es[i..], st, sig)) ==
          if a.Err? then Errs(a.fault) else Join(vs + [a.v], EvalAll(w, es[i + 1..], st, a.sig))
    {
      assert es[i..][0] == es[i] && es[i..][1..] == es[i + 1..];
      var a := Eval(w, es[i], st, sig);
      if a.Ok? {
        var rest := EvalAll(w, es[i + 1..], st, a.sig);
        if rest.Oks? { assert vs + ([a.v] + rest.vs) == (vs + [a.v]) + rest.vs; }
      }
    }

    method EvalCall(w: World, ghost e: Expr, f: Fn, es: seq<Expr>, ghost st: St, ghost sig: Sig, ghost g: Scope)
      returns (r: Out)
      requires View() == Some(st) && Signals() == sig && w.levels == decls && Checked(e, g, decls) && StoreTyped(st, g)
      requires e.Call? && e.fn == f && e.args == es
      modifies this`usr1, this`usr2
      ensures Answer(r) == Eval(w, e, st, sig)
      ensures r.Got? ==> r.s.Clean() && (fresh(r.s) || r.s in levels)
      decreases e, 0
    {
      ArgsChecked(SigOf(f), es, 0, es, g);
      var args, fault := EvalArgs(w, es, st, sig, g);
      if fault.Some? { return Failed(fault.value); }
      EvalAllSound(w, SigOf(f), es, 0, es, st, sig, g);
      ArgTypes(f, es, g);
      ghost var all := EvalAll(w, es, st, sig);
      r := CallBuiltin(w, f, args, all.vs, st, all.sig);
    }

    // The body of a builtin expression.
    method CallBuiltin(w: World, f: Fn, args: seq<Sym>, ghost vs: seq<Value>, ghost st: St, ghost sig: Sig)
      returns (r: Out)
      requires w.levels == decls && |args| == |vs| && st.trace == trace && Signals() == sig
      requires forall k | 0 <= k < |args| :: args[k].Val() == vs[k]
      requires f == FSignal && |args| > 0 ==> vs[0].StrV?
      requires f == FLevelName && |args| > 0 ==> vs[0].IntV?
      modifies this`usr1, this`usr2
      ensures Answer(r) == CallFn(w, f, vs, st, sig) && (r.Got? ==> r.s.Clean() && fresh(r.s))
    {
      if f in {FSignal, FLevelName, FString} && |args| == 0 { return Failed(NoQuery); }
      var val := new Sym();
      if f == FSignal {
        var seen := Signal(args[0].strVal);
        val.SetBool(seen);
      } else if f == FLevelName {
        var i := args[0].intVal;
        val.SetString(if 0 <= i < |decls| then decls[i].name else "");
      } else if f == FString {
        val.SetString(Render(args[0].Val()));
      } else {
        var values := Values(args, vs);
        var q := if HasBody(f) then QueryBody(f, StrFields(values), w, values, trace) else w.query(f, values, trace);
        if q.None? { return Failed(NoQuery); }
        val.SetBool(q.value);
      }
      r := Got(val);
    }

    method Values(args: seq<Sym>, ghost vs: seq<Value>) returns (values: seq<Value>)
      requires |args| == |vs| && forall k | 0 <= k < |args| :: args[k].Val() == vs[k]
      ensures values == vs
    {
      values := [];
      for i := 0 to |args|
        invariant values == vs[..i]
      {
        values := values + [args[i].Val()];
      }
    }

    // A pending signal is taken off its counter.
    method Signal(name: string) returns (seen: bool)
      modifies this`usr1, this`usr2
      ensures (seen, Signals()) == SignalStep(name, old(Signals()))
    {
      if name == "SIGUSR1" && usr1 > 0 {
        usr1, seen := usr1 - 1, true;
      } else if name == "SIGUSR2" && usr2 > 0 {
        usr2, seen := usr2 - 1, true;
      } else {
        seen := false;
      }
    }

    lemma ArgsChecked(s: FnSig, args: seq<Expr>, i: nat, rest: seq<Expr>, g: Scope)
      requires ScopeOk(g) && i <= |args| && rest == args[i..]
      requires ArgsTyped(s, args, i, rest) && AnnotatedAll(rest, g) && LinkedAll(rest, decls)
      ensures CheckedAll(rest, g, decls)
      decreases rest
    {
      if rest != [] { ArgsChecked(s, args, i + 1, rest[1..], g); }
    }

    lemma ArgTypes(f: Fn, es: seq<Expr>, g: Scope)
      requires ScopeOk(g) && AnnotatedAll(es, g) && ArgsTyped(SigOf(f), es, 0, es)
      ensures f == FSignal && |es| > 0 ==> TypeOf(es[0]) == TVString
      ensures f == FLevelName && |es| > 0 ==> TypeOf(es[0]) == TVInt
    {
      if |es| > 0 { TypeConcrete(es[0], g); }
    }

    // ----- actions -----

    // A variable is set by pointing it to another symbol.
    method SetVal(x: string, s: Sym, ghost st: St)
      requires View() == Some(st) && x in vars && x !in BUILTIN_VARS && s.Clean()
      requires s in levels || forall y | y in vars :: vars[y].val != s
      modifies vars[x]
      ensures View() == Some(st.(vars := st.vars[x := s.Val()]))
    {
      vars[x].val := s;
      assert Store() == st.vars[x := s.Val()];
    }

    // CurrLevel points to the level of the context.
    method PointTo(s: Sym, ghost st: St)
      requires Shape() && s in levels && s.slevel == ctxLevel && st == Abs()
      modifies vars[CURR_LEVEL]
      ensures View() == Some(st)
    {
      ghost var i := LevelAt(s);
      vars[CURR_LEVEL].val := s;
      assert Store() == st.vars;
    }

    // The decision of trigger, on the names and numbers of the two levels.
    method ExternTrigger(w: World, toName: string, toId: int64, fromName: string, fromId: int64, fromSoft: bool)
      returns (done: bool)
      modifies this`ctxLevel, this`init, this`trace
      ensures
        if toName == fromName && old(init) then
          done && ctxLevel == old(ctxLevel) && init == old(init) && trace == old(trace)
        else if toId > |decls| || toId < 0 then
          !done && ctxLevel == old(ctxLevel) && init == old(init) && trace == old(trace)
        else if !(toId > fromId || !old(init)) && !(fromSoft && fromId - 1 == toId) then
          !done && init && ctxLevel == old(ctxLevel) && trace == old(trace)
        else
          && done == w.scripts(old(trace), fromName, toName) && init
          && ctxLevel == (if done then toId else old(ctxLevel))
          && trace == old(trace) + [TriggerEv(fromName, toName, done)]
    {
      var isFirst := !init;
      if toName == fromName && !isFirst { return true; }
      if toId > |decls| || toId < 0 { return false; }
      init := true;
      var toHigher := toId > fromId || isFirst;
      var toLower := fromSoft && fromId - 1 == toId;
      if !toHigher && !toLower { return false; }
      done := w.scripts(trace, fromName, toName);
      trace := trace + [TriggerEv(fromName, toName, done)];
      if done { ctxLevel := toId; }
    }

    lemma LevelAt(s: Sym) returns (i: int64)
      requires Shape() && s in levels
      ensures 0 <= i < |levels| && levels[i] == s && s.slevel == i && LevelOk(i)
      ensures s.name == decls[i].name && s.soft == decls[i].soft
    {
      var k :| 0 <= k < |levels| && levels[k] == s;
      assert LevelOk(k);
      i := k;
    }

    // On success CurrLevel points to the symbol of the new level.
    method Trigger(w: World, to: int64, ghost st: St) returns (done: bool)
      requires View() == Some(st) && w.levels == decls && 0 <= to < |levels|
      modifies this`ctxLevel, this`init, this`trace, vars[CURR_LEVEL]
      ensures var (ok, st') := TriggerStep(w, to, decls[to].name, st); done == ok && View() == Some(st')
    {
      var curr := vars[CURR_LEVEL].val;
      ghost var from := LevelAt(curr);
      assert LevelOk(to);
      var target := levels[to];
      done := ExternTrigger(w, target.name, target.slevel, curr.name, curr.slevel, curr.soft);
      if done { PointTo(target, Abs()); }
    }

    // How an action ended, in the terms of Semantics.
    ghost function ActEnd(r: ActOut): Option<ActRes>
      reads this, vars.Values, levels, set v | v in vars.Values :: v.val
    {
      match r
      case Ran(ok) => if View().Some? then Some(ActOk(ok, View().value, Signals())) else None
      case ActCrashed => Some(ActStop(trace))
      case ActFailed(f) => Some(ActFault(f))
    }

    method RunAction(w: World, e: Expr, ghost st: St, ghost g: Scope) returns (r: ActOut)
      requires View() == Some(st) && w.levels == decls && ActionOk(e, g, decls) && StoreTyped(st, g)
      modifies this, Settable()
      ensures ActEnd(r) == Some(old(RunAct(w, e, st, Signals())))
    {
      ArgsChecked(SigOf(e.fn), e.args, 0, e.args, g);
      if e.fn == FSet {
        assert Annotated(e.args[0], g);
        r := RunSet(w, e.args[0].name, e.args[1], st, g);
      } else if e.fn == FTrigger {
        assert Linked(e.args[0], decls);
        var done := Trigger(w, e.args[0].idx, st);
        r := Ran(done);
      } else {
        r := RunOutward(w, e.fn, e.args, st, g);
      }
    }

    // The first argument of set is not evaluated.
    method RunSet(w: World, x: string, right: Expr, ghost st: St, ghost g: Scope) returns (r: ActOut)
      requires View() == Some(st) && w.levels == decls && StoreTyped(st, g)
      requires x in g && x in vars && x !in BUILTIN_VARS && Checked(right, g, decls)
      modifies this`usr1, this`usr2, vars[x]
      ensures
        match old(Eval(w, right, st, Signals()))
        case Ok(v, sig) =>
          r == Ran(true) && View() == Some(st.(vars := st.vars[x := v])) && Signals() == sig
        case Err(f) => r == ActFailed(f)
    {
      hide Eval, TypeOf;
      var s := EvalExpr(w, right, st, Signals(), g);
      if s.Failed? { return ActFailed(s.fault); }
      SetVal(x, s.s, st);
      r := Ran(true);
    }

    // Actions seen from outside: their arguments are evaluated first.
    method RunOutward(w: World, f: Fn, es: seq<Expr>, ghost st: St, ghost g: Scope) returns (r: ActOut)
      requires View() == Some(st) && w.levels == decls && StoreTyped(st, g)
      requires CheckedAll(es, g, decls) && IsAction(f) && f !in {FSet, FTrigger}
      modifies this`usr1, this`usr2, this`trace
      ensures
        match old(EvalAll(w, es, st, Signals()))
        case Oks(vs, sig) => ActEnd(r) == Some(DoAction(w, f, vs, st, sig))
        case Errs(fault) => r == ActFailed(fault)
    {
      ghost var rs := EvalAll(w, es, st, Signals());
      var args, fault := EvalArgs(w, es, st, Signals(), g);
      if fault.Some? { return ActFailed(fault.value); }
      var vs := Values(args, rs.vs);
      r := Perform(w, f, vs, st);
    }

    method Perform(w: World, f: Fn, vs: seq<Value>, ghost st: St) returns (r: ActOut)
      requires View() == Some(st) && IsAction(f) && f !in {FSet, FTrigger}
      modifies this`trace
      ensures ActEnd(r) == Some(DoAction(w, f, vs, st, old(Signals())))
    {
      if f in {FAlert, FCrash, FExec} && |vs| == 0 { return ActFailed(NoQuery); }
      var success := true;
      if f == FAlert {
        trace := trace + [AlertEv(StrField(vs[0]))];
      } else if f == FExec {
        var path, rest := StrField(vs[0]), StrFields(vs[1..]);
        success := w.exec(trace, path, rest);
        trace := trace + [ExecEv(path, rest)];
      } else if f == FCrash {
        trace := trace + [CrashEv(StrField(vs[0]))];
        return ActCrashed;
      } else {
        success := f == FTrue;
        trace := trace + [ShowEv(success, vs)];
      }
      r := Ran(success);
    }

    // ----- rules and programs -----

    ghost function RunEnd(r: RunOut): Option<RunRes>
      reads this, vars.Values, levels, set v | v in vars.Values :: v.val
    {
      match r
      case Finished => if View().Some? then Some(Done(View().value, Signals())) else None
      case Crashed => Some(Stop(trace))
      case RunFailed(f) => Some(Fail(f))
    }

    // The chain of a rule: it is left at the first action whose connector
    // does not match the success of the action before.
    method RunActions(w: World, acts: seq<Act>, ghost st: St, ghost g: Scope) returns (r: RunOut)
      requires View() == Some(st) && w.levels == decls && StoreTyped(st, g) && ActionsOk(acts, g, decls)
      modifies this, Settable()
      ensures RunEnd(r) == Some(old(RunChain(w, acts, true, st, Signals())))
    {
      var doNext, isSuccess := true, true;
      ghost var s, sig0 := st, Signals();
      var i := 0;
      assert acts[0..] == acts;
      while i < |acts|
        invariant 0 <= i <= |acts| && View() == Some(s) && StoreTyped(s, g)
        invariant RunChain(w, acts, true, st, sig0) == RunChain(w, acts[i..], isSuccess, s, Signals())
      {
        var con := acts[i].con;
        ChainEnds(w, acts, i, isSuccess, s, Signals());
        doNext := (isSuccess && con == Then) || (!isSuccess && con == NThen) || con == Comma;
        if !doNext { break; }
        var o;
        o, s := RunNext(w, acts, i, isSuccess, s, g);
        if o.ActFailed? { return RunFailed(o.fault); }
        if o.ActCrashed? { return Crashed; }
        isSuccess, i := o.success, i + 1;
      }
      r := Finished;
    }

    // One action of a chain, as the rest of the chain sees it.
    method RunNext(w: World, acts: seq<Act>, i: nat, success: bool, ghost st: St, ghost g: Scope)
      returns (o: ActOut, ghost st': St)
      requires View() == Some(st) && w.levels == decls && StoreTyped(st, g) && ActionsOk(acts, g, decls)
      requires i < |acts| && Taken(acts[i].con, success)
      modifies this, Settable()
      ensures o.Ran? ==> View() == Some(st') && StoreTyped(st', g)
      ensures o.Ran? ==>
        old(RunChain(w, acts[i..], success, st, Signals())) == RunChain(w, acts[i + 1..], o.success, st', Signals())
      ensures !o.Ran? ==> ChainEnd(o) == Some(old(RunChain(w, acts[i..], success, st, Signals())))
    {
      var e := acts[i].what;
      ghost var sig := Signals();
      ChainStep(w, acts, i, success, st, sig);
      ActSound(w, e, st, sig, g);
      o := RunAction(w, e, st, g);
      ghost var spec := RunAct(w, e, st, sig);
      st' := if spec.ActOk? then spec.st else st;
    }

    // A chain that ends with one of its actions.
    ghost function ChainEnd(o: ActOut): Option<RunRes>
      reads this, vars.Values, levels, set v | v in vars.Values :: v.val
    {
      match o
      case Ran(_) => None
      case ActCrashed => RunEnd(Crashed)
      case ActFailed(f) => RunEnd(RunFailed(f))
    }

    lemma ChainEnds(w: World, acts: seq<Act>, i: nat, success: bool, st: St, sig: Sig)
      requires i < |acts|
      ensures !Taken(acts[i].con, success) ==> RunChain(w, acts[i..], success, st, sig) == Done(st, sig)
    {
    }

    lemma ChainStep(w: World, acts: seq<Act>, i: nat, success: bool, st: St, sig: Sig)
      requires i < |acts|
      ensures RunChain(w, acts[i..], success, st, sig) ==
        if !Taken(acts[i].con, success) then Done(st, sig)
        else
          match RunAct(w, acts[i].what, st, sig)
          case ActOk(ok, st', sig') => RunChain(w, acts[i + 1..], ok, st', sig')
          case ActStop(t) => Stop(t)
          case ActFault(f) => Fail(f)
    {
      assert acts[i..][0] == acts[i] && acts[i..][1..] == acts[i + 1..];
    }

    // A rule: its trigger, then its chain.
    method RuleInterp(w: World, rule: Rule, ghost st: St, ghost g: Scope) returns (r: RunOut)
      requires View() == Some(st) && w.levels == decls && StoreTyped(st, g) && RuleOk(rule, g, decls)
      modifies this, Settable()
      ensures RunEnd(r) == Some(old(RunRule(w, rule, st, Signals())))
    {
      ValueTyped(w, rule.expr, st, Signals(), g);
      var v := EvalExpr(w, rule.expr, st, Signals(), g);
      if v.Failed? { return RunFailed(v.fault); }
      if v.s.boolVal {
        r := RunActions(w, rule.acts, st, g);
      } else {
        r := Finished;
      }
    }

    method RunAllRules(w: World, rules: seq<Rule>, ghost st: St, ghost g: Scope) returns (r: RunOut)
      requires View() == Some(st) && w.levels == decls && StoreTyped(st, g) && RulesOk(rules, g, decls)
      modifies this, Settable()
      ensures RunEnd(r) == Some(old(RunRules(w, rules, st, Signals())))
    {
      ghost var s, sig0 := st, Signals();
      assert rules[0..] == rules;
      for i := 0 to |rules|
        invariant View() == Some(s) && StoreTyped(s, g)
        invariant RunRules(w, rules, st, sig0) == RunRules(w, rules[i..], s, Signals())
      {
        assert rules[i..][0] == rules[i] && rules[i..][1..] == rules[i + 1..];
        RuleKeepsTypes(w, rules[i], s, Signals(), g);
        ghost var spec := RunRule(w, rules[i], s, Signals());
        r := RuleInterp(w, rules[i], s, g);
        if r != Finished { return; }
        s := spec.st;
      }
      r := Finished;
    }

    lemma RuleKeepsTypes(w: World, rule: Rule, st: St, sig: Sig, g: Scope)
      requires StoreTyped(st, g) && RuleOk(rule, g, decls)
      ensures var r := RunRule(w, rule, st, sig); r.Done? ==> StoreTyped(r.st, g)
    {
      OkIsSafe(rule, g, decls);
      RuleSound(w, rule, st, sig, g);
    }

    // ----- the predefined variables -----

    // Before the first run no level has been entered.
    ghost predicate Booting()
      reads this`ctxLevel, vars.Values, levels, set v | v in vars.Values :: v.val
    {
      && Shape() && 0 < |levels| && ctxLevel < 0
      && vars[CURR_LEVEL].val !in levels
    }

    // The state a run starts from: the first one enters level 0.
    ghost function Start(): Option<St>
      reads this`ctxLevel, this`init, this`trace, vars.Values, levels, set v | v in vars.Values :: v.val
    {
      if ctxLevel >= 0 then View() else if Booting() then Some(Abs().(lvl := 0)) else None
    }

    // CurrLevel.Val.IntVal is written through the pointer; once a level is
    // entered that is the constant of a declared level, and keeps its value.
    method WriteThrough(ghost st: St)
      requires if ctxLevel < 0 then Booting() && st == Abs() else View() == Some(st)
      modifies vars[CURR_LEVEL].val
      ensures if ctxLevel < 0 then Booting() && st == Abs() else View() == Some(st)
    {
      var c := vars[CURR_LEVEL].val;
      if c in levels { ghost var i := LevelAt(c); }
      c.intVal := ctxLevel;
      assert Store() == st.vars;
    }

    // The first run enters level 0 and points CurrLevel to its symbol.
    method EnterLevel(ghost st: St)
      requires Start() == Some(st)
      modifies this`ctxLevel, vars[CURR_LEVEL], vars[CURR_LEVEL].val
      ensures View() == Some(st)
    {
      var isInit := ctxLevel < 0;
      WriteThrough(Abs());
      if isInit {
        assert LevelOk(0);
        ctxLevel := levels[0].intVal;
        PointTo(levels[0], st);
      }
    }

    // The clock is written into the symbols that Time and Uptime point to.
    method WriteClock(time: int64, uptime: int64)
      requires BUILTIN_VARS <= vars.Keys
      modifies vars[TIME].val`intVal, vars[UPTIME].val`intVal
      ensures vars[TIME].val.intVal == if vars[TIME].val == vars[UPTIME].val then uptime else time
      ensures vars[UPTIME].val.intVal == uptime
    {
      vars[TIME].val.intVal := time;
      vars[UPTIME].val.intVal := uptime;
    }

    method SetPredefVars(time: int64, uptime: int64, ghost st: St)
      requires Start() == Some(st)
      modifies this`ctxLevel, vars[CURR_LEVEL], vars[CURR_LEVEL].val, vars[TIME].val, vars[UPTIME].val
      ensures View() == Some(SetPredef(st, time, uptime))
    {
      EnterLevel(st);
      SetClock(time, uptime, st);
    }

    method SetClock(time: int64, uptime: int64, ghost st: St)
      requires View() == Some(st)
      modifies vars[TIME].val, vars[UPTIME].val
      ensures View() == Some(SetPredef(st, time, uptime))
    {
      WriteClock(time, uptime);
      assert Store() == SetPredef(st, time, uptime).vars;
    }

    // One run of the program: the first section for the message.
    method Interp(w: World, sections: seq<Section>, kind: string, time: int64, uptime: int64,
                  ghost st: St, ghost g: Scope) returns (r: RunOut)
      requires Start() == Some(st)
      requires w.levels == decls && StoreTyped(st, g) && SectionsOk(sections, g, decls)
      modifies this, Settable(), vars[CURR_LEVEL].val, vars[TIME].val, vars[UPTIME].val
      ensures RunEnd(r) == Some(old(RunSections(w, sections, kind, SetPredef(st, time, uptime), Signals())))
    {
      ghost var s, sig := SetPredef(st, time, uptime), Signals();
      PredefTyped(st, time, uptime, g);
      SetPredefVars(time, uptime, st);
      assert Signals() == sig;
      r := RunFirst(w, sections, kind, s, g);
    }

    lemma PredefTyped(st: St, time: int64, uptime: int64, g: Scope)
      requires StoreTyped(st, g) && (TIME in g ==> g[TIME] == TVInt) && (UPTIME in g ==> g[UPTIME] == TVInt)
      ensures StoreTyped(SetPredef(st, time, uptime), g)
    {
    }

    // Only the first section for the message is run.
    method RunFirst(w: World, sections: seq<Section>, kind: string, ghost st: St, ghost g: Scope) returns (r: RunOut)
      requires View() == Some(st) && w.levels == decls && StoreTyped(st, g) && SectionsOk(sections, g, decls)
      modifies this, Settable()
      ensures RunEnd(r) == Some(old(RunSections(w, sections, kind, st, Signals())))
    {
      assert sections[0..] == sections;
      for i := 0 to |sections|
        invariant View() == Some(st) && Signals() == old(Signals())
        invariant RunSections(w, sections, kind, st, Signals()) == RunSections(w, sections[i..], kind, st, Signals())
      {
        assert sections[i..][0] == sections[i] && sections[i..][1..] == sections[i + 1..];
        if sections[i].id == kind {
          r := RunAllRules(w, sections[i].rules, st, g);
          return;
        }
      }
      r := Finished;
    }

    // All that arrives is served in order; the heap is kept between runs.
    method Serve(p: Prog, inputs: seq<Input>, ghost st: St, ghost g: Scope) returns (r: RunOut)
      requires Start() == Some(st) && StoreTyped(st, g) && SectionsOk(p.sections, g, decls)
      requires forall k | 0 <= k < |inputs| :: inputs[k].Run? ==> inputs[k].w.levels == decls
      modifies this, Settable(), levels, vars[CURR_LEVEL].val, vars[TIME].val, vars[UPTIME].val
      ensures ServeEnd(r) == Some(old(RunStream(p, inputs, st, Signals())))
    {
      ghost var s, sig0 := st, Signals();
      assert inputs[0..] == inputs;
      for i := 0 to |inputs|
        invariant Start() == Some(s) && StoreTyped(s, g)
        invariant vars[TIME].val == old(vars[TIME].val) && vars[UPTIME].val == old(vars[UPTIME].val)
        invariant vars[CURR_LEVEL].val == old(vars[CURR_LEVEL].val) || vars[CURR_LEVEL].val in levels
        invariant RunStream(p, inputs, st, sig0) == RunStream(p, inputs[i..], s, Signals())
      {
        StreamStep(p, inputs, i, s, Signals());
        OneKeepsTypes(p, inputs[i], s, Signals(), g);
        ghost var spec := RunStream(p, [inputs[i]], s, Signals());
        r := ServeOne(p, inputs[i], s, g);
        if r != Finished { return; }
        s := spec.st;
      }
      r := Finished;
    }

    method ServeOne(p: Prog, input: Input, ghost st: St, ghost g: Scope) returns (r: RunOut)
      requires Start() == Some(st) && StoreTyped(st, g) && SectionsOk(p.sections, g, decls)
      requires input.Run? ==> input.w.levels == decls
      modifies this, Settable(), vars[CURR_LEVEL].val, vars[TIME].val, vars[UPTIME].val
      ensures ServeEnd(r) == Some(old(RunStream(p, [input], st, Signals())))
      ensures r == Finished ==> vars[CURR_LEVEL].val == old(vars[CURR_LEVEL].val) || vars[CURR_LEVEL].val in levels
    {
      r := Finished;
      match input
      case Usr1 => usr1 := usr1 + 1;
      case Usr2 => usr2 := usr2 + 1;
      case Run(w, kind, time, uptime) =>
        r := Interp(w, p.sections, kind, time, uptime, st, g);
        if r == Finished { LevelEntered(); }
    }

    ghost function ServeEnd(r: RunOut): Option<RunRes>
      reads this, vars.Values, levels, set v | v in vars.Values :: v.val
    {
      if r == Finished then (if Start().Some? then Some(Done(Start().value, Signals())) else None) else RunEnd(r)
    }

    lemma LevelEntered()
      requires View().Some?
      ensures Start() == View() && vars[CURR_LEVEL].val in levels
    {
      var i := LevelAt(vars[CURR_LEVEL].val);
    }

    lemma StreamStep(p: Prog, inputs: seq<Input>, i: nat, st: St, sig: Sig)
      requires i < |inputs|
      ensures
        var r := RunStream(p, [inputs[i]], st, sig);
        RunStream(p, inputs[i..], st, sig) == if r.Done? then RunStream(p, inputs[i + 1..], r.st, r.sig) else r
    {
      assert inputs[i..][0] == inputs[i] && inputs[i..][1..] == inputs[i + 1..] && [inputs[i]][1..] == [];
    }

    lemma OneKeepsTypes(p: Prog, input: Input, st: St, sig: Sig, g: Scope)
      requires StoreTyped(st, g) && SectionsOk(p.sections, g, decls)
      ensures var r := RunStream(p, [input], st, sig); r.Done? ==> StoreTyped(r.st, g)
    {
      assert [input][1..] == [];
      if input.Run? {
        PredefTyped(st, input.time, input.uptime, g);
        AllOkIsSafe(p.sections, g, decls);
        SectionsSound(input.w, p.sections, input.kind, SetPredef(st, input.time, input.uptime), sig, g);
      }
    }

    // What a set of Time leads to when the clock is next written through it:
    // the levels of the program survive exactly if the new value was none of
    // them, or the clock happens to show its number.
    method SetTimeThenClock(s: Sym, time: int64, uptime: int64)
      requires Valid() && s.Clean() && s.tval == TVInt
      modifies vars[TIME], s, vars[UPTIME].val
      ensures (forall i | 0 <= i < |levels| :: LevelOk(i)) <==> s !in levels || old(s.intVal) == time
      ensures s in levels && old(s.intVal) != time ==> !Valid()
    {
      vars[TIME].val := s;
      WriteClock(time, uptime);
      if s in levels {
        ghost var i :| 0 <= i < |levels| && levels[i] == s;
        assert old(LevelOk(i));
        assert old(s.intVal) == i && s.intVal == time;
        assert LevelOk(i) ==> time == i;
        if time == i {
          forall j | 0 <= j < |levels| ensures LevelOk(j) { assert old(LevelOk(j)); }
        }
      } else {
        forall j | 0 <= j < |levels| ensures LevelOk(j) { assert old(LevelOk(j)); }
      }
    }
  }
}
