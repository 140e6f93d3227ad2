// What the operators of the language mean (tree/eval.go), said of evaluation
// and in terms of integers, truth values and strings alone.
module OperatorLaws {
  import opened Wrappers
  import opened Types
  import opened Int64
  import opened Syntax
  import opened Semantics
  import opened TypeCheck

  // ----- integers -----

  // x is the 64-bit integer congruent to y.
  predicate Same64(x: int, y: int) {
    -0x8000_0000_0000_0000 <= x < 0x8000_0000_0000_0000 && (x - y) % 0x1_0000_0000_0000_0000 == 0
  }

  // Bit k of the two's complement form of x.
  predicate BitSet(x: int, k: nat)
    decreases k
  {
    if k == 0 then x % 2 == 1 else BitSet(x / 2, k - 1)
  }

  // The operator on one bit of either operand.
  predicate BitOf(op: Op, a: bool, b: bool) {
    match op
    case OpBitAnd => a && b
    case OpBitOr => a || b
    case OpXor => a != b
    case _ => !b
  }

  // Every bit of v is made of the bits at its place.
  ghost predicate BitByBit(op: Op, v: int, a: int, b: int) {
    forall k: nat :: BitSet(v, k) == BitOf(op, BitSet(a, k), BitSet(b, k))
  }

  const BIT_OPS := {OpBitAnd, OpBitOr, OpXor, OpCompl}

  ghost predicate MeansInt(op: Op, a: int, b: int, v: Value) {
    match op
    case OpAdd => v.IntV? && Same64(v.i, a + b)
    case OpSub => v.IntV? && Same64(v.i, a - b)
    case OpMul => v.IntV? && Same64(v.i, a * b)
    case OpL => v == BoolV(a < b)
    case OpG => v == BoolV(a > b)
    case OpLEq => v == BoolV(a <= b)
    case OpGEq => v == BoolV(a >= b)
    case OpEq => v == BoolV(a == b)
    case OpNEq => v == BoolV(a != b)
    case _ => op in BIT_OPS && v.IntV? && BitByBit(op, v.i, a, b)
  }

  // The operators on integers but for division.
  const INT_OPS := {OpAdd, OpSub, OpMul, OpBitAnd, OpBitOr, OpXor, OpCompl, OpL, OpG, OpLEq, OpGEq, OpEq, OpNEq}

  lemma {:induction false} BitIs(x: int, k: nat)
    ensures Bit(x, k) == 1 <==> BitSet(x, k)
    decreases k
  {
    if k > 0 { BitIs(x / 2, k - 1); }
  }

  lemma BitAt(op: BitOp, a: int64, b: int64, k: nat)
    ensures
      var bit := BitSet(BitOp64(op, a, b), k);
      bit == match op
             case BAnd => BitSet(a, k) && BitSet(b, k)
             case BOr => BitSet(a, k) || BitSet(b, k)
             case BXor => BitSet(a, k) != BitSet(b, k)
  {
    hide BitOp64, BitSet, Bit;
    BitOp64Bit(op, a, b, k);
    BitIs(BitOp64(op, a, b), k);
    BitIs(a, k);
    BitIs(b, k);
  }

  lemma ComplAt(b: int64, k: nat)
    ensures BitSet(Compl(b), k) == !BitSet(b, k)
  {
    hide BitSet, Bit;
    ComplBit(b, k);
    BitIs(Compl(b), k);
    BitIs(b, k);
  }

  lemma BitsMean(op: Op, a: int64, b: int64)
    requires op in BIT_OPS
    ensures var r := IntOp(a, b, op); r.err == None && r.v.IntV? && BitByBit(op, r.v.i, a, b)
  {
    hide BitOp64, BitSet, Compl;
    var v := IntOp(a, b, op).v.i;
    forall k: nat ensures BitSet(v, k) == BitOf(op, BitSet(a, k), BitSet(b, k)) {
      BitAt(BAnd, a, b, k);
      BitAt(BOr, a, b, k);
      BitAt(BXor, a, b, k);
      ComplAt(b, k);
    }
  }

  lemma WrapMeans(x: int)
    ensures Same64(Wrap(x), x)
  {
    assert (x - Wrap(x)) % TWO64 == 0;
    assert Wrap(x) - x == -(x - Wrap(x));
  }

  lemma SumMeans(op: Op, a: int64, b: int64)
    requires op in INT_OPS && op !in BIT_OPS
    ensures var r := IntOp(a, b, op); r.err == None && MeansInt(op, a, b, r.v)
  {
    hide BitByBit, Same64, Wrap;
    WrapMeans(a + b);
    WrapMeans(a - b);
    WrapMeans(a * b);
  }

  lemma IntMeaning(op: Op, a: int64, b: int64)
    requires op in INT_OPS
    ensures var r := BinExpr(IntV(a), IntV(b), op); r.err == None && MeansInt(op, a, b, r.v)
  {
    hide IntOp, BitByBit, MeansInt;
    assert BinExpr(IntV(a), IntV(b), op) == IntOp(a, b, op);
    if op in BIT_OPS {
      BitsMean(op, a, b);
      BitsAreMeant(op, a, b, IntOp(a, b, op).v);
    } else {
      SumMeans(op, a, b);
    }
  }

  lemma BitsAreMeant(op: Op, a: int64, b: int64, v: Value)
    requires op in BIT_OPS && v.IntV? && BitByBit(op, v.i, a, b)
    ensures MeansInt(op, a, b, v)
  {
    hide BitByBit;
  }

  // The quotient and the remainder of a division that truncates toward zero.
  predicate Truncates(a: int, b: int, q: int, r: int) {
    && a == q * b + r
    && (if b > 0 then -b < r < b else b < r < -b)
    && (if a >= 0 then r >= 0 else r <= 0)
  }

  const LEAST := -0x8000_0000_0000_0000

  // Division by zero is an error; the least integer divided by -1 is itself.
  lemma DivisionMeaning(a: int64, b: int64)
    ensures
      var q, r := BinExpr(IntV(a), IntV(b), OpDiv), BinExpr(IntV(a), IntV(b), OpMod);
      if b == 0 then q.err == r.err == Some(DivZero)
      else
        && q.err == r.err == None && q.v.IntV? && r.v.IntV?
        && if a == LEAST && b == -1 then q.v.i == LEAST && r.v.i == 0 else Truncates(a, b, q.v.i, r.v.i)
  {
    if b != 0 {
      QuoRemLaw(a, b);
      QuoWraps(a, b);
    }
  }

  // ----- truth values and strings -----

  predicate MeansBool(op: Op, a: bool, b: bool, v: Value) {
    match op
    case OpLogAnd => v == BoolV(a && b)
    case OpLogOr => v == BoolV(a || b)
    case OpL => v == BoolV(!a && b)
    case OpG => v == BoolV(a && !b)
    case OpLEq => v == BoolV(!a || b)
    case OpGEq => v == BoolV(a || !b)
    case OpEq => v == BoolV(a == b)
    case OpNEq => v == BoolV(a != b)
    case _ => false
  }

  const BOOL_OPS := {OpLogAnd, OpLogOr, OpL, OpG, OpLEq, OpGEq, OpEq, OpNEq}

  // s and t agree up to k, where s ends or has the smaller character.
  predicate BeforeAt(s: string, t: string, k: nat) {
    k <= |s| && k < |t| && s[..k] == t[..k] && (k == |s| || s[k] < t[k])
  }

  ghost predicate Precedes(s: string, t: string) {
    exists k: nat :: BeforeAt(s, t, k)
  }

  ghost predicate MeansStr(op: Op, s: string, t: string, v: Value) {
    match op
    case OpAdd => v.StrV? && v.s <= s + t && |v.s| == if |s| + |t| > 4096 then 4096 else |s| + |t|
    case OpL => v == BoolV(Precedes(s, t))
    case OpG => v == BoolV(Precedes(t, s))
    case OpLEq => v == BoolV(!Precedes(t, s))
    case OpGEq => v == BoolV(!Precedes(s, t))
    case OpEq => v == BoolV(s == t)
    case OpNEq => v == BoolV(s != t)
    case _ => false
  }

  const STR_OPS := {OpAdd, OpL, OpG, OpLEq, OpGEq, OpEq, OpNEq}

  lemma FirstAgrees(s: string, t: string, k: nat)
    requires k > 0 && BeforeAt(s, t, k)
    ensures s[0] == t[0]
  {
    assert s[..k][0] == s[0] && t[..k][0] == t[0];
  }

  lemma {:induction false} LessPrecedes(s: string, t: string)
    ensures StrLess(s, t) <==> Precedes(s, t)
    decreases s
  {
    if s == "" {
      if t != "" { assert BeforeAt(s, t, 0); }
    } else if t != "" && s[0] == t[0] {
      LessPrecedes(s[1..], t[1..]);
      forall k: nat | BeforeAt(s, t, k) ensures BeforeAt(s[1..], t[1..], k - 1) {
        assert k > 0 && s[1..][..k - 1] == s[..k][1..] && t[1..][..k - 1] == t[..k][1..];
      }
      forall k: nat | BeforeAt(s[1..], t[1..], k) ensures BeforeAt(s, t, k + 1) {
        assert s[..k + 1] == [s[0]] + s[1..][..k] && t[..k + 1] == [t[0]] + t[1..][..k];
      }
    } else if t != "" {
      if s[0] < t[0] { assert BeforeAt(s, t, 0); }
      forall k: nat | BeforeAt(s, t, k) ensures k == 0 {
        if k > 0 { FirstAgrees(s, t, k); }
      }
    }
  }

  // Exactly one of before, after and equal holds of two strings.
  lemma {:induction false} LessTotal(s: string, t: string)
    ensures !StrLess(s, t) && s != t <==> StrLess(t, s)
    decreases s
  {
    if s != "" && t != "" && s[0] == t[0] {
      LessTotal(s[1..], t[1..]);
      assert s == [s[0]] + s[1..] && t == [t[0]] + t[1..];
    }
  }

  lemma BoolMeaning(op: Op, a: bool, b: bool)
    requires op in BOOL_OPS
    ensures var r := BinExpr(BoolV(a), BoolV(b), op); r.err == None && MeansBool(op, a, b, r.v)
  {
  }

  lemma StrMeaning(op: Op, s: string, t: string)
    requires op in STR_OPS
    ensures var r := BinExpr(StrV(s), StrV(t), op); r.err == None && MeansStr(op, s, t, r.v)
  {
    LessPrecedes(s, t);
    LessPrecedes(t, s);
    LessTotal(s, t);
  }

  // ----- evaluation -----

  // What a binary operator makes of two values: the values it is not made
  // for, and values of two types, are a fault.
  ghost predicate Means(op: Op, a: Value, b: Value, e: Res, sig: Sig) {
    match a
    case IntV(x) =>
      if !b.IntV? || op !in INT_OPS + {OpDiv, OpMod} then b.UndefV? || e == Err(BadOp)
      else if op in INT_OPS then e.Ok? && e.sig == sig && MeansInt(op, x, b.i, e.v)
      else Divides(op, x, b.i, e, sig)
    case BoolV(x) =>
      if !b.BoolV? || op !in BOOL_OPS then b.UndefV? || op == OpLogNeg || e == Err(BadOp)
      else e.Ok? && e.sig == sig && MeansBool(op, x, b.b, e.v)
    case StrV(s) =>
      if !b.StrV? || op !in STR_OPS then b.UndefV? || e == Err(BadOp)
      else e.Ok? && e.sig == sig && MeansStr(op, s, b.s, e.v)
    case UndefV => true
  }

  ghost predicate Divides(op: Op, a: int, b: int, e: Res, sig: Sig) {
    if b == 0 then e == Err(DivZero)
    else
      && e.Ok? && e.sig == sig && e.v.IntV?
      && if a == LEAST && b == -1 then e.v.i == if op == OpDiv then LEAST else 0
         else if op == OpDiv then exists r: int :: Truncates(a, b, e.v.i, r)
         else exists q: int :: Truncates(a, b, q, e.v.i)
  }

  // The operands are evaluated from left to right, and their values put
  // together as the operator says.
  lemma EvalMeaning(
      w: World, op: Op, l: Expr, r: Expr, dt: Type, st: St, sig: Sig, a: Value, sig1: Sig, b: Value, sig2: Sig)
    requires Eval(w, l, st, sig) == Ok(a, sig1) && Eval(w, r, st, sig1) == Ok(b, sig2)
    requires op != OpLogAnd && op != OpLogOr
    ensures Means(op, a, b, Eval(w, Bin(op, l, r, dt), st, sig), sig2)
  {
    hide BinExpr, Means;
    var c := BinExpr(a, b, op);
    assert Eval(w, Bin(op, l, r, dt), st, sig) == if c.err.Some? then Err(c.err.value) else Ok(c.v, sig2);
    ValuesMean(op, a, b, sig2);
  }

  lemma ValuesMean(op: Op, a: Value, b: Value, sig: Sig)
    ensures
      var c := BinExpr(a, b, op);
      Means(op, a, b, if c.err.Some? then Err(c.err.value) else Ok(c.v, sig), sig)
  {
    hide MeansInt, MeansBool, MeansStr, IntOp, StrOp;
    match a
    case IntV(x) =>
      if b.IntV? && op in INT_OPS { IntMeaning(op, x, b.i); }
      if b.IntV? && op in {OpDiv, OpMod} { DivisionMeaning(x, b.i); }
    case BoolV(x) => if b.BoolV? && op in BOOL_OPS { BoolMeaning(op, x, b.b); }
    case StrV(s) => if b.StrV? && op in STR_OPS { StrMeaning(op, s, b.s); }
    case UndefV =>
  }

  // && and || look at their right side only if the left one does not decide;
  // what is not looked at may fault, and takes no signal.
  lemma ShortCircuit(w: World, l: Expr, r: Expr, dt: Type, st: St, sig: Sig, a: bool, sig1: Sig)
    requires Eval(w, l, st, sig) == Ok(BoolV(a), sig1)
    ensures
      var and, or := Eval(w, Bin(OpLogAnd, l, r, dt), st, sig), Eval(w, Bin(OpLogOr, l, r, dt), st, sig);
      var right := Eval(w, r, st, sig1);
      if a then
        or == Ok(BoolV(true), sig1) && (right.Err? || right.v.BoolV? ==> and == right)
      else
        and == Ok(BoolV(false), sig1) && (right.Err? || right.v.BoolV? ==> or == right)
  {
  }

  // The signs, the complement and the negation.
  predicate UnaryMeans(op: Op, v: Value, u: Value) {
    match v
    case IntV(i) =>
      && (op == OpAdd ==> u == v)
      && (op == OpSub ==> u.IntV? && Same64(u.i, -(i as int)))
      && (op == OpCompl ==> u.IntV? && u.i == -1 - i)
    case BoolV(b) => op == OpLogNeg ==> u == BoolV(!b)
    case StrV(_) => op == OpAdd ==> u == v
    case UndefV => true
  }

  lemma SignMeans(i: int64)
    ensures IntOp(0, i, OpAdd) == OpRes(IntV(i), None)
    ensures var u := IntOp(0, i, OpSub).v; u.IntV? && Same64(u.i, -(i as int))
  {
    hide Same64;
    WrapMeans(-(i as int));
  }

  lemma UnaryValue(op: Op, v: Value)
    ensures UnaryMeans(op, v, UnExpr(v, op))
  {
    hide Same64, Wrap;
    if v.IntV? { SignMeans(v.i); }
  }

  lemma UnaryMeaning(w: World, op: Op, r: Expr, dt: Type, st: St, sig: Sig, v: Value, sig1: Sig)
    requires Eval(w, r, st, sig) == Ok(v, sig1)
    ensures var e := Eval(w, Un(op, r, dt), st, sig); e.Ok? && e.sig == sig1 && UnaryMeans(op, v, e.v)
  {
    hide UnaryMeans, UnExpr;
    UnaryValue(op, v);
  }

  // ----- typing -----

  function OpsOf(t: TypeVal): set<Op> {
    match t
    case TVInt => INT_OPS + {OpDiv, OpMod}
    case TVBool => BOOL_OPS + {OpLogNeg}
    case TVString => STR_OPS
    case _ => {}
  }

  const COMPARISONS := {OpL, OpG, OpLEq, OpGEq, OpEq, OpNEq}

  // An operator node has a type if and only if the operands have one type
  // and the operator is made for it.
  lemma OperatorTyped(op: Op, l: Expr, r: Expr, dt: Type)
    requires TypeOf(l) in {TVUndef, TVInt, TVBool, TVString}
    ensures
      TypeOf(Bin(op, l, r, dt)) ==
      if TypeOf(r) != TypeOf(l) || op !in OpsOf(TypeOf(l)) then TVUndef
      else if op in COMPARISONS then TVBool
      else TypeOf(l)
  {
  }

  lemma UnaryTyped(op: Op, r: Expr, dt: Type)
    requires TypeOf(r) in {TVUndef, TVInt, TVBool, TVString} && op in {OpAdd, OpSub, OpCompl, OpLogNeg}
    ensures
      TypeOf(Un(op, r, dt)) ==
      if TypeOf(r) == TVInt && op != OpLogNeg then TVInt
      else if TypeOf(r) == TVBool && op == OpLogNeg then TVBool
      else TVUndef
  {
  }

  // The operators that are typed are those that mean something: with values of
  // one type they fault in a division by zero only, and all others always do.
  lemma TypedExactly(w: World, op: Op, a: Value, b: Value, dt: Type, st: St, sig: Sig)
    requires !a.UndefV? && !b.UndefV? && op != OpLogAnd && op != OpLogOr
    ensures
      var e := Bin(op, Lit(a), Lit(b), dt);
      Eval(w, e, st, sig) == Err(BadOp) <==> TypeOf(e) == TVUndef
  {
  }
}
