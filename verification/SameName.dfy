// A comparison with a variable of the same name (tree/const.go): operators and
// literals are all called "lit", so a variable of that name equals them all.
module SameName {
  import opened Wrappers
  import opened Types
  import opened Syntax
  import opened Semantics
  import opened TypeCheck
  import opened Soundness
  import opened Fold
  import opened CleanSound
  import opened Scripted
  import opened Asking

  function Comparison(op: Op, l: Expr, x: string, g: Scope): Expr
    requires x in g
  {
    Bin(op, l, Var(x, Type(g[x], TEExpr)), BOOL_TYPE)
  }

  // The comparison keeps its value, in every world and typed store.
  ghost predicate FoldsRight(op: Op, l: Expr, x: string, g: Scope)
    requires x in g
  {
    var e := Comparison(op, l, x, g);
    forall w: World, st, sig | StoreTyped(st, g) ::
      Refines(Eval(w, e, st, sig), Eval(w, FoldBinary(op, e.left, e.right, e.dt), st, sig))
  }

  // Folding a comparison by name is right exactly when the left operand is a
  // variable or has another name.
  lemma SameNameExact(op: Op, l: Expr, x: string, g: Scope)
    requires op == OpEq || op == OpNEq
    requires ScopeOk(g) && (CURR_LEVEL in g ==> g[CURR_LEVEL] == TVInt) && x in g && x != CURR_LEVEL
    requires Annotated(l, g) && TypeOf(l) == g[x] && Total(l) && (l.Var? || x !in Reads(l))
    ensures FoldsRight(op, l, x, g) <==> l.Var? || NameOf(l) != Ident(x)
  {
    if l.Var? || NameOf(l) != Ident(x) {
      forall w: World, st, sig | StoreTyped(st, g)
        ensures
          var e := Comparison(op, l, x, g);
          Refines(Eval(w, e, st, sig), Eval(w, FoldBinary(op, e.left, e.right, e.dt), st, sig))
      {
        if l.Var? && l.name == x { SameVariable(w, op, l, x, st, sig, g); }
      }
    } else {
      NameMisleads(op, l, x, g);
    }
  }

  lemma SameVariable(w: World, op: Op, l: Expr, x: string, st: St, sig: Sig, g: Scope)
    requires op == OpEq || op == OpNEq
    requires ScopeOk(g) && x in g && x != CURR_LEVEL && StoreTyped(st, g)
    requires l.Var? && l.name == x && Annotated(l, g)
    ensures Eval(w, Comparison(op, l, x, g), st, sig) == Ok(BoolV(op == OpEq), sig)
  {
    assert Eval(w, l, st, sig) == Ok(st.vars[x], sig);
    assert BinExpr(st.vars[x], st.vars[x], op) == OpRes(BoolV(op == OpEq), None);
  }

  lemma OthersDiffer(op: Op, v: Value)
    requires (op == OpEq || op == OpNEq) && !v.UndefV?
    ensures BinExpr(v, OtherValue(v), op).v == BoolV(op == OpNEq) && BinExpr(v, OtherValue(v), op).err.None?
  {
  }

  // Against a variable with another value.
  lemma ComparisonRuns(w: World, op: Op, l: Expr, x: string, st: St, sig: Sig, v: Value, sig': Sig, g: Scope)
    requires (op == OpEq || op == OpNEq) && x in g && x != CURR_LEVEL && !v.UndefV?
    requires Eval(w, l, st, sig) == Ok(v, sig') && x in st.vars && st.vars[x] == OtherValue(v)
    ensures Eval(w, Comparison(op, l, x, g), st, sig) == Ok(BoolV(op == OpNEq), sig')
  {
    hide BinExpr;
    OthersDiffer(op, v);
    assert Eval(w, Comparison(op, l, x, g).right, st, sig') == Ok(OtherValue(v), sig');
  }

  lemma ComparisonFolds(op: Op, l: Expr, x: string, g: Scope)
    requires (op == OpEq || op == OpNEq) && x in g && NameOf(l) == Ident(x)
    ensures var e := Comparison(op, l, x, g); FoldBinary(op, e.left, e.right, e.dt) == Lit(BoolV(op == OpEq))
  {
  }

  lemma NameMisleads(op: Op, l: Expr, x: string, g: Scope)
    requires op == OpEq || op == OpNEq
    requires ScopeOk(g) && (CURR_LEVEL in g ==> g[CURR_LEVEL] == TVInt) && x in g && x != CURR_LEVEL
    requires Annotated(l, g) && TypeOf(l) == g[x] && Total(l) && x !in Reads(l)
    requires !l.Var? && NameOf(l) == Ident(x)
    ensures !FoldsRight(op, l, x, g)
  {
    hide TypeOf, FoldBinary, BinExpr;
    var w, base, sig := Script([], NOWHERE, [], 0), Filled(g, ""), Sig(0, 0);
    TotalOk(w, NOWHERE, l, base, sig, g);
    ValueTyped(w, l, base, sig, g);
    var a := Eval(w, l, base, sig);
    var st := base.(vars := base.vars[x := OtherValue(a.v)]);
    EvalAlike(w, NOWHERE, l, st, base, x, sig);
    var e := Comparison(op, l, x, g);
    ComparisonRuns(w, op, l, x, st, sig, a.v, a.sig, g);
    ComparisonFolds(op, l, x, g);
    assert !Refines(Eval(w, e, st, sig), Eval(w, FoldBinary(op, e.left, e.right, e.dt), st, sig));
  }

  const Y := Var("y", INT_TYPE)

  const ONE_PLUS_Y := Bin(OpAdd, Lit(IntV(1)), Y, INT_TYPE)

  const YL: Scope := map["y" := TVInt][LIT := TVInt]

  // (1 + y) == lit is folded to true, and != to false, whatever the two are.
  lemma SumIsLit(c: Compilers)
    ensures FoldExpr(c, Comparison(OpEq, ONE_PLUS_Y, LIT, YL)) == Folded(0, Lit(BoolV(true)))
    ensures FoldExpr(c, Comparison(OpNEq, ONE_PLUS_Y, LIT, YL)) == Folded(0, Lit(BoolV(false)))
    ensures !FoldsRight(OpEq, ONE_PLUS_Y, LIT, YL) && !FoldsRight(OpNEq, ONE_PLUS_Y, LIT, YL)
  {
    hide FoldExpr, FoldsRight, Annotated, TypeOf, Total, Reads;
    SumFolds(c, OpEq);
    SumFolds(c, OpNEq);
    SumTyped();
    SameNameExact(OpEq, ONE_PLUS_Y, LIT, YL);
    SameNameExact(OpNEq, ONE_PLUS_Y, LIT, YL);
  }

  lemma SumTyped()
    ensures Annotated(ONE_PLUS_Y, YL) && TypeOf(ONE_PLUS_Y) == TVInt && Total(ONE_PLUS_Y) && LIT !in Reads(ONE_PLUS_Y)
  {
    assert Reads(ONE_PLUS_Y) == {"y"};
  }

  lemma SumFolds(c: Compilers, op: Op)
    requires op == OpEq || op == OpNEq
    ensures FoldExpr(c, Comparison(op, ONE_PLUS_Y, LIT, YL)) == Folded(0, Lit(BoolV(op == OpEq)))
  {
    assert FoldExpr(c, ONE_PLUS_Y) == Folded(0, ONE_PLUS_Y);
    ComparisonFolds(op, ONE_PLUS_Y, LIT, YL);
  }
}
