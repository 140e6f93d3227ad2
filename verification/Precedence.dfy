// The precedence of the operators (parser/pratt.go) without binding powers: a
// grammar with one nonterminal for each line of a list of operators, whose
// trees are exactly those the parser returns.
module Precedence {
  import opened Types
  import opened Pratt

  // From the loosest line to the tightest.  Operators of one line are taken
  // from left to right.
  const LINES: seq<set<Op>> := [
    {OpLogOr},
    {OpLogAnd},
    {OpBitAnd},
    {OpXor},
    {OpBitOr},
    {OpEq, OpNEq},
    {OpG, OpL, OpGEq, OpLEq},
    {OpAdd, OpSub},
    {OpMul, OpDiv, OpMod}]

  const SIGNS := {OpAdd, OpSub, OpLogNeg, OpCompl}

  // The tree c is derived from nonterminal n: an operand of line n and an
  // operator of that line before a tighter one, or what is tighter; at the
  // end, signs before an atom, a call or a group.
  predicate Derived(c: Cst, n: nat)
    requires n <= |LINES|
    decreases c, |LINES| - n
  {
    if n < |LINES| then
      || Derived(c, n + 1)
      || (c.Bin? && c.op in LINES[n] && Derived(c.left, n) && Derived(c.right, n + 1))
    else
      match c
      case Atom(t) => t.TLit? || t.TId? || t.TAsig?
      case Call(_, args, comma) => AllDerived(args) && (comma ==> args != [])
      case Paren(d) => Derived(d, 0)
      case Un(op, arg) => op in SIGNS && Derived(arg, |LINES|)
      case Bin(_, _, _) => false
  }

  predicate AllDerived(cs: seq<Cst>)
    decreases cs
  {
    cs == [] || (Derived(cs[0], 0) && AllDerived(cs[1..]))
  }

  // ! and ~ and an opening parenthesis have a power between operands, too,
  // which is not what they are for.
  predicate Ordinary(c: Cst)
    decreases c
  {
    match c
    case Atom(_) => true
    case Call(_, args, _) => AllOrdinary(args)
    case Paren(d) => Ordinary(d)
    case Un(_, arg) => Ordinary(arg)
    case Bin(op, l, r) => op !in {OpLogNeg, OpCompl, OpLPar} && Ordinary(l) && Ordinary(r)
  }

  predicate AllOrdinary(cs: seq<Cst>)
    decreases cs
  {
    cs == [] || (Ordinary(cs[0]) && AllOrdinary(cs[1..]))
  }

  // ----- lines and powers -----

  function Line(op: Op): (n: nat)
    requires op !in {OpLogNeg, OpCompl, OpLPar}
    ensures n < |LINES|
  {
    if op == OpLogOr then 0
    else if op == OpLogAnd then 1
    else if op == OpBitAnd then 2
    else if op == OpXor then 3
    else if op == OpBitOr then 4
    else if op == OpEq || op == OpNEq then 5
    else if op in {OpG, OpL, OpGEq, OpLEq} then 6
    else if op == OpAdd || op == OpSub then 7
    else 8
  }

  lemma OneLine(op: Op, n: nat)
    requires n < |LINES|
    ensures op in LINES[n] <==> op !in {OpLogNeg, OpCompl, OpLPar} && Line(op) == n
  {
    assert LINES[n] == match n
                       case 0 => {OpLogOr}
                       case 1 => {OpLogAnd}
                       case 2 => {OpBitAnd}
                       case 3 => {OpXor}
                       case 4 => {OpBitOr}
                       case 5 => {OpEq, OpNEq}
                       case 6 => {OpG, OpL, OpGEq, OpLEq}
                       case 7 => {OpAdd, OpSub}
                       case _ => {OpMul, OpDiv, OpMod};
  }

  lemma PowerOrder(a: Op, b: Op)
    requires a !in {OpLogNeg, OpCompl, OpLPar} && b !in {OpLogNeg, OpCompl, OpLPar}
    ensures Power(a) < Power(b) <==> Line(a) < Line(b)
    ensures Power(a) < 16000
  {
  }

  // ----- proper trees are those derived -----

  // The operator at the root, which stands for the whole edge.
  lemma {:induction false} EdgeIsRoot(c: Cst, rbp: int)
    requires Proper(c) && Ordinary(c)
    ensures Tight(c, rbp) <==> (c.Bin? ==> Power(c.op) > rbp)
    ensures if c.Bin? then OpenRight(c) == Power(c.op) else OpenRight(c) >= 16000
    decreases c
  {
    match c
    case Bin(op, l, r) =>
      EdgeIsRoot(l, rbp);
      EdgeIsRoot(r, Power(op));
      PowerOrder(op, op);
    case Un(op, arg) =>
      EdgeIsRoot(arg, PrefixPower(op));
      if arg.Bin? { PowerOrder(arg.op, arg.op); }
    case _ =>
  }

  // Derived from n: derived from the line of the root, if that is not looser.
  lemma {:induction false} DerivedAtRoot(c: Cst, n: nat)
    requires n <= |LINES|
    ensures
      Derived(c, n) <==>
      if c.Bin? then
        && c.op !in {OpLogNeg, OpCompl, OpLPar} && Line(c.op) >= n
        && Derived(c.left, Line(c.op)) && Derived(c.right, Line(c.op) + 1)
      else Derived(c, |LINES|)
    decreases |LINES| - n
  {
    if n < |LINES| {
      DerivedAtRoot(c, n + 1);
      if c.Bin? { OneLine(c.op, n); }
    }
  }

  predicate AtLeast(c: Cst, n: nat) {
    c.Bin? ==> c.op !in {OpLogNeg, OpCompl, OpLPar} && Line(c.op) >= n
  }

  lemma {:induction false} ProperIsDerived(c: Cst, n: nat)
    requires Ordinary(c) && n <= |LINES|
    ensures Derived(c, n) <==> Proper(c) && AtLeast(c, n)
    decreases c
  {
    DerivedAtRoot(c, n);
    match c
    case Bin(op, l, r) =>
      ProperIsDerived(l, Line(op));
      ProperIsDerived(r, Line(op) + 1);
      if Proper(l) && Proper(r) { OperandsFit(op, l, r); }
    case Un(op, arg) =>
      ProperIsDerived(arg, |LINES|);
      if Proper(arg) { EdgeIsRoot(arg, PrefixPower(op)); }
      if arg.Bin? { PowerOrder(arg.op, arg.op); }
    case Call(_, args, _) => AllProperDerived(args);
    case Paren(d) => ProperIsDerived(d, 0);
    case Atom(_) =>
  }

  lemma {:induction false} AllProperDerived(cs: seq<Cst>)
    requires AllOrdinary(cs)
    ensures AllDerived(cs) <==> ProperAll(cs)
    decreases cs
  {
    if cs != [] {
      ProperIsDerived(cs[0], 0);
      AllProperDerived(cs[1..]);
    }
  }

  lemma OperandsFit(op: Op, l: Cst, r: Cst)
    requires Ordinary(Bin(op, l, r)) && Proper(l) && Proper(r)
    ensures Fits(l, op) && Tight(r, Power(op)) <==> AtLeast(l, Line(op)) && AtLeast(r, Line(op) + 1)
  {
    EdgeIsRoot(l, 0);
    EdgeIsRoot(r, Power(op));
    PowerOrder(op, op);
    if l.Bin? { PowerOrder(l.op, op); }
    if r.Bin? { PowerOrder(op, r.op); }
  }

  // The parser gives an ordinary tree for its tokens if and only if the
  // grammar derives it.
  lemma GrammarExact(c: Cst, ts: seq<Tok>)
    requires Ordinary(c)
    ensures Expr(ts, -1) == Ok(c, []) <==> ts == Tokens(c) && Derived(c, 0)
  {
    ParseExact(ts, -1, c, []);
    ProperIsDerived(c, 0);
    TightAnyway(c, -1);
    assert Tokens(c) + [] == Tokens(c);
  }

  // ----- instances -----

  // Of two operators the one of the tighter line takes the operand between
  // them, and of one line the first.
  lemma TwoOperators(a: Tok, o1: Op, b: Tok, o2: Op, c: Tok, n1: nat, n2: nat)
    requires IsOperand(a) && IsOperand(b) && IsOperand(c)
    requires n1 < |LINES| && n2 < |LINES| && o1 in LINES[n1] && o2 in LINES[n2]
    ensures
      Expr([a, TOp(o1), b, TOp(o2), c], -1) ==
      Ok(if n2 > n1 then Bin(o1, Atom(a), Bin(o2, Atom(b), Atom(c)))
         else Bin(o2, Bin(o1, Atom(a), Atom(b)), Atom(c)), [])
  {
    OneLine(o1, n1);
    OneLine(o2, n2);
    AtomDerived(a, n1);
    AtomDerived(b, n2);
    AtomDerived(c, n2 + 1);
    if n2 > n1 {
      PairDerived(o2, b, c, n1 + 1);
      PairTokens(o2, b, c);
      OuterDerived(o1, Atom(a), Bin(o2, Atom(b), Atom(c)), [a, TOp(o1), b, TOp(o2), c]);
    } else {
      PairDerived(o1, a, b, n2);
      PairTokens(o1, a, b);
      OuterDerived(o2, Bin(o1, Atom(a), Atom(b)), Atom(c), [a, TOp(o1), b, TOp(o2), c]);
    }
  }

  lemma AtomDerived(t: Tok, n: nat)
    requires IsOperand(t) && n <= |LINES|
    ensures Derived(Atom(t), n)
  {
    DerivedAtRoot(Atom(t), n);
  }

  lemma PairDerived(op: Op, a: Tok, b: Tok, n: nat)
    requires IsOperand(a) && IsOperand(b) && op !in {OpLogNeg, OpCompl, OpLPar} && n <= Line(op)
    ensures Derived(Bin(op, Atom(a), Atom(b)), n)
  {
    AtomDerived(a, Line(op));
    AtomDerived(b, Line(op) + 1);
    DerivedAtRoot(Bin(op, Atom(a), Atom(b)), n);
  }

  lemma PairTokens(op: Op, a: Tok, b: Tok)
    ensures Tokens(Bin(op, Atom(a), Atom(b))) == [a, TOp(op), b]
  {
  }

  lemma OuterDerived(op: Op, l: Cst, r: Cst, ts: seq<Tok>)
    requires op !in {OpLogNeg, OpCompl, OpLPar} && Ordinary(l) && Ordinary(r)
    requires Derived(l, Line(op)) && Derived(r, Line(op) + 1)
    requires ts == Tokens(l) + [TOp(op)] + Tokens(r)
    ensures Expr(ts, -1) == Ok(Bin(op, l, r), [])
  {
    hide Expr, Derived;
    DerivedAtRoot(Bin(op, l, r), 0);
    GrammarExact(Bin(op, l, r), ts);
  }

  predicate IsOperand(t: Tok) {
    t.TLit? || t.TId?
  }

  // A sign takes the operand after it alone.
  lemma SignThenOperator(sign: Op, a: Tok, op: Op, b: Tok)
    requires IsOperand(a) && IsOperand(b) && sign in SIGNS && op !in {OpLogNeg, OpCompl, OpLPar}
    ensures Expr([TOp(sign), a, TOp(op), b], -1) == Ok(Bin(op, Un(sign, Atom(a)), Atom(b)), [])
  {
    AtomDerived(a, |LINES|);
    AtomDerived(b, Line(op) + 1);
    DerivedAtRoot(Un(sign, Atom(a)), Line(op));
    assert Tokens(Un(sign, Atom(a))) == [TOp(sign), a];
    OuterDerived(op, Un(sign, Atom(a)), Atom(b), [TOp(sign), a, TOp(op), b]);
  }

  // Between operands ! and ~ are tighter than every operator and than the
  // signs + and -, but not than ! and ~ before an operand.
  lemma NegationBetween(neg: Op, a: Tok, op: Op, b: Tok, c: Tok)
    requires IsOperand(a) && IsOperand(b) && IsOperand(c)
    requires (neg == OpLogNeg || neg == OpCompl) && op !in {OpLogNeg, OpCompl, OpLPar}
    ensures Expr([a, TOp(op), b, TOp(neg), c], -1) == Ok(Bin(op, Atom(a), Bin(neg, Atom(b), Atom(c))), [])
  {
    PowerOrder(op, op);
    PairTokens(neg, b, c);
    ProperRead(Bin(op, Atom(a), Bin(neg, Atom(b), Atom(c))), [a, TOp(op), b, TOp(neg), c]);
  }

  lemma NegationAfterSign(neg: Op, sign: Op, b: Tok, c: Tok)
    requires IsOperand(b) && IsOperand(c) && sign in SIGNS && (neg == OpLogNeg || neg == OpCompl)
    ensures
      Expr([TOp(sign), b, TOp(neg), c], -1) ==
      Ok(if sign == OpAdd || sign == OpSub then Un(sign, Bin(neg, Atom(b), Atom(c)))
         else Bin(neg, Un(sign, Atom(b)), Atom(c)), [])
  {
    var t :=
      if sign == OpAdd || sign == OpSub then Un(sign, Bin(neg, Atom(b), Atom(c)))
      else Bin(neg, Un(sign, Atom(b)), Atom(c));
    PairTokens(neg, b, c);
    assert Tokens(Un(sign, Atom(b))) == [TOp(sign), b];
    ProperRead(t, [TOp(sign), b, TOp(neg), c]);
  }

  lemma ProperRead(c: Cst, ts: seq<Tok>)
    requires Proper(c) && ts == Tokens(c)
    ensures Expr(ts, -1) == Ok(c, [])
  {
    ParseExact(ts, -1, c, []);
    TightAnyway(c, -1);
    assert ts + [] == ts;
  }
}
