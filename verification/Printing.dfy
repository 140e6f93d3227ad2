// Printing trees: with the parentheses precedence requires, and the way error
// messages do it (tree/sym.go SimpleString), and what the parser makes of both.
module Printing {
  import opened Types
  import opened Pratt

  // Trees as the parser leaves them: parentheses are gone (tree/tree.go).
  datatype Ast =
    | Leaf(t: Tok)
    | FCall(f: string, args: seq<Ast>)
    | Unary(op: Op, arg: Ast)
    | Binary(op: Op, left: Ast, right: Ast)

  function Strip(c: Cst): Ast {
    match c
    case Atom(t) => Leaf(t)
    case Call(f, args, _) => FCall(f, StripAll(args))
    case Paren(d) => Strip(d)
    case Un(op, arg) => Unary(op, Strip(arg))
    case Bin(op, l, r) => Binary(op, Strip(l), Strip(r))
  }

  function StripAll(cs: seq<Cst>): (r: seq<Ast>)
    ensures |r| == |cs|
  {
    if cs == [] then [] else [Strip(cs[0])] + StripAll(cs[1..])
  }

  // Leaves are operands, and unary operators are prefix operators.
  predicate WellFormed(a: Ast) {
    match a
    case Leaf(t) => IsAtom(t)
    case FCall(_, args) => WellFormedAll(args)
    case Unary(op, arg) => IsPrefix(op) && WellFormed(arg)
    case Binary(_, l, r) => WellFormed(l) && WellFormed(r)
  }

  predicate WellFormedAll(es: seq<Ast>) {
    es == [] || (WellFormed(es[0]) && WellFormedAll(es[1..]))
  }

  // ----- as few parentheses as possible -----

  function Wrap(c: Cst, bare: bool): Cst {
    if bare then c else Paren(c)
  }

  function Show(a: Ast): Cst {
    match a
    case Leaf(t) => Atom(t)
    case FCall(f, args) => Call(f, ShowAll(args), false)
    case Unary(op, arg) => var c := Show(arg); Un(op, Wrap(c, Tight(c, PrefixPower(op))))
    case Binary(op, l, r) =>
      var c, d := Show(l), Show(r);
      Bin(op, Wrap(c, Fits(c, op)), Wrap(d, Tight(d, Power(op))))
  }

  function ShowAll(es: seq<Ast>): (r: seq<Cst>)
    ensures |r| == |es|
  {
    if es == [] then [] else [Show(es[0])] + ShowAll(es[1..])
  }

  lemma {:induction false} ShowProper(a: Ast)
    requires WellFormed(a)
    ensures Proper(Show(a)) && Strip(Show(a)) == a && !Show(a).Paren?
    decreases a
  {
    match a
    case Leaf(_) =>
    case FCall(_, args) => ShowAllProper(args);
    case Unary(_, arg) => ShowProper(arg);
    case Binary(_, l, r) =>
      ShowProper(l);
      ShowProper(r);
  }

  lemma {:induction false} ShowAllProper(es: seq<Ast>)
    requires WellFormedAll(es)
    ensures ProperAll(ShowAll(es)) && StripAll(ShowAll(es)) == es
    decreases es
  {
    if es != [] {
      ShowProper(es[0]);
      ShowAllProper(es[1..]);
      assert ShowAll(es)[1..] == ShowAll(es[1..]);
    }
  }

  // Printing and parsing give back the tree.
  lemma RoundTrip(a: Ast)
    requires WellFormed(a)
    ensures var r := Expr(Tokens(Show(a)), -1); r == Ok(Show(a), []) && Strip(r.c) == a
  {
    ShowProper(a);
    TightAnyway(Show(a), -1);
    ParseExact(Tokens(Show(a)), -1, Show(a), []);
    assert Tokens(Show(a)) + [] == Tokens(Show(a));
  }

  // Parentheses only where the operand would not stand without them.
  predicate Lean(c: Cst) {
    match c
    case Atom(_) => true
    case Call(_, args, comma) => !comma && LeanAll(args)
    case Paren(_) => false
    case Un(op, arg) =>
      if arg.Paren? then Lean(arg.c) && !Tight(arg.c, PrefixPower(op)) else Lean(arg)
    case Bin(op, l, r) =>
      && (if l.Paren? then Lean(l.c) && !Fits(l.c, op) else Lean(l))
      && (if r.Paren? then Lean(r.c) && !Tight(r.c, Power(op)) else Lean(r))
  }

  predicate LeanAll(cs: seq<Cst>) {
    cs == [] || (Lean(cs[0]) && LeanAll(cs[1..]))
  }

  // The printed tree is the one without superfluous parentheses.
  lemma {:induction false} ShowExact(c: Cst)
    requires Proper(c)
    ensures Lean(c) <==> c == Show(Strip(c))
    decreases c, 0
  {
    match c
    case Atom(_) =>
    case Call(_, args, _) => ShowAllExact(args);
    case Paren(d) => ShowBare(d);
    case Un(_, arg) => OperandExact(arg);
    case Bin(_, l, r) =>
      OperandExact(l);
      OperandExact(r);
  }

  lemma {:induction false} OperandExact(c: Cst)
    requires Proper(c)
    ensures var d := if c.Paren? then c.c else c; Lean(d) <==> d == Show(Strip(d))
    ensures c.Paren? ==> Strip(c) == Strip(c.c)
    decreases c, 1
  {
    if c.Paren? { ShowExact(c.c); } else { ShowExact(c); }
  }

  lemma {:induction false} ShowAllExact(cs: seq<Cst>)
    requires ProperAll(cs)
    ensures LeanAll(cs) <==> cs == ShowAll(StripAll(cs))
    decreases cs
  {
    if cs != [] {
      ShowExact(cs[0]);
      ShowAllExact(cs[1..]);
      assert StripAll(cs)[1..] == StripAll(cs[1..]);
      assert cs == [cs[0]] + cs[1..];
    }
  }

  lemma {:induction false} ShowBare(c: Cst)
    ensures !Show(Strip(c)).Paren?
    decreases c
  {
    if c.Paren? { ShowBare(c.c); }
  }

  // ----- the way messages print -----

  // Binary expressions in parentheses, unary ones without.
  function Full(a: Ast): Cst {
    match a
    case Leaf(t) => Atom(t)
    case FCall(f, args) => Call(f, FullAll(args), false)
    case Unary(op, arg) => Un(op, Full(arg))
    case Binary(op, l, r) => Paren(Bin(op, Full(l), Full(r)))
  }

  function FullAll(es: seq<Ast>): (r: seq<Cst>)
    ensures |r| == |es|
  {
    if es == [] then [] else [Full(es[0])] + FullAll(es[1..])
  }

  lemma {:induction false} FullStrip(a: Ast)
    ensures Strip(Full(a)) == a
    decreases a
  {
    match a
    case Leaf(_) =>
    case FCall(_, args) => FullStripAll(args);
    case Unary(_, arg) => FullStrip(arg);
    case Binary(_, l, r) =>
      FullStrip(l);
      FullStrip(r);
  }

  lemma {:induction false} FullStripAll(es: seq<Ast>)
    ensures StripAll(FullAll(es)) == es
    decreases es
  {
    if es != [] {
      FullStrip(es[0]);
      FullStripAll(es[1..]);
      assert FullAll(es)[1..] == FullAll(es[1..]);
    }
  }

  // A sign in front of the whole operand.
  predicate Signed(a: Ast) {
    a.Unary? && (a.op == OpAdd || a.op == OpSub || Signed(a.arg))
  }

  // The operand to the left of an operator that also is a prefix operator has
  // no sign in front, and the one to the left of a parenthesis is itself
  // printed with a closing parenthesis.
  predicate LeftOk(op: Op, l: Ast) {
    match op
    case OpLogNeg => !Signed(l)
    case OpCompl => !Signed(l)
    case OpLPar => l.Binary? || l.FCall?
    case _ => true
  }

  predicate Printable(a: Ast) {
    match a
    case Leaf(_) => true
    case FCall(_, args) => PrintableAll(args)
    case Unary(_, arg) => Printable(arg)
    case Binary(op, l, r) => LeftOk(op, l) && Printable(l) && Printable(r)
  }

  predicate PrintableAll(es: seq<Ast>) {
    es == [] || (Printable(es[0]) && PrintableAll(es[1..]))
  }

  lemma {:induction false} FullFits(a: Ast, op: Op)
    requires WellFormed(a)
    ensures Fits(Full(a), op) <==> LeftOk(op, a)
    ensures OpenRight(Full(a)) == if !a.Unary? then CLOSED else if Signed(a) then 16000 else 17000
    decreases a
  {
    if a.Unary? { FullFits(a.arg, op); }
  }

  lemma {:induction false} FullProper(a: Ast)
    requires WellFormed(a)
    ensures Proper(Full(a)) <==> Printable(a)
    decreases a
  {
    match a
    case Leaf(_) =>
    case FCall(_, args) => FullAllProper(args);
    case Unary(_, arg) => FullProper(arg);
    case Binary(op, l, r) =>
      FullFits(l, op);
      FullProper(l);
      FullProper(r);
  }

  lemma {:induction false} FullAllProper(es: seq<Ast>)
    requires WellFormedAll(es)
    ensures ProperAll(FullAll(es)) <==> PrintableAll(es)
    decreases es
  {
    if es != [] {
      FullProper(es[0]);
      FullAllProper(es[1..]);
      assert FullAll(es)[1..] == FullAll(es[1..]);
    }
  }

  // What a message shows is parsed back, grouped as it is shown, exactly when
  // no operator that is also a prefix follows a sign, and no parenthesis taken
  // as an operator follows an operand it would call.
  lemma FullRoundTrip(a: Ast)
    requires WellFormed(a)
    ensures Expr(Tokens(Full(a)), -1) == Ok(Full(a), []) <==> Printable(a)
    ensures Strip(Full(a)) == a
  {
    FullStrip(a);
    FullProper(a);
    TightAnyway(Full(a), -1);
    ParseExact(Tokens(Full(a)), -1, Full(a), []);
    assert Tokens(Full(a)) + [] == Tokens(Full(a));
  }

  // The message for ! between -a and b is read back as - in front of a ! b.
  lemma SignLost()
    ensures
      var a, b := Leaf(TId("a")), Leaf(TId("b"));
      var e := Binary(OpLogNeg, Unary(OpSub, a), b);
      var r := Expr(Tokens(Full(e)), -1);
      r.Ok? && r.rest == [] && Strip(r.c) == Unary(OpSub, Binary(OpLogNeg, a, b)) != e
  {
    var a, b := Leaf(TId("a")), Leaf(TId("b"));
    var e := Binary(OpLogNeg, Unary(OpSub, a), b);
    var c := Paren(Un(OpSub, Bin(OpLogNeg, Atom(TId("a")), Atom(TId("b")))));
    assert Tokens(Full(e)) == [LPAR, TOp(OpSub), TId("a"), TOp(OpLogNeg), TId("b"), TRPar];
    assert Tokens(c) == [LPAR, TOp(OpSub), TId("a"), TOp(OpLogNeg), TId("b"), TRPar];
    ParseExact(Tokens(c), -1, c, []);
    assert Tokens(c) + [] == Tokens(c);
  }
}
