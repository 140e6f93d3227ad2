// The symbols that hold values at run time, and the operators that overwrite
// their fields (tree/eval.go).
module Cells {
  import opened Wrappers
  import opened Types
  import opened Int64
  import opened Syntax
  import opened Semantics

  // A symbol has one field per type; tval says which one counts.  A level is
  // a symbol too, with a name, its index, and whether it is soft.
  class Sym {
    var name: string
    var isLevel: bool
    var tval: TypeVal
    var intVal: int64
    var boolVal: bool
    var strVal: string
    var slevel: int64
    var soft: bool

    // An anonymous constant without a type.
    constructor ()
      ensures Blank() && tval == TVUndef && name == LIT && !isLevel
    {
      name, isLevel, tval, slevel, soft := LIT, false, TVUndef, 0, false;
      intVal, boolVal, strVal := 0, false, "";
    }

    ghost predicate Blank()
      reads this
    {
      intVal == 0 && !boolVal && strVal == ""
    }

    // The boolean field is false unless the symbol is a boolean, and the type
    // is one that values have.
    ghost predicate Clean()
      reads this
    {
      tval in {TVUndef, TVInt, TVBool, TVString} && (boolVal ==> tval == TVBool)
    }

    function Val(): Value
      reads this
    {
      match tval
      case TVInt => IntV(intVal)
      case TVBool => BoolV(boolVal)
      case TVString => StrV(strVal)
      case _ => UndefV
    }

    // All the fields of another symbol.
    method CopyAll(s2: Sym)
      modifies this
      ensures Val() == old(s2.Val()) && name == old(s2.name) && slevel == old(s2.slevel)
      ensures isLevel == old(s2.isLevel) && soft == old(s2.soft) && Clean() == old(s2.Clean())
    {
      name, isLevel, tval, slevel, soft := s2.name, s2.isLevel, s2.tval, s2.slevel, s2.soft;
      intVal, boolVal, strVal := s2.intVal, s2.boolVal, s2.strVal;
    }

    // The type of another symbol, and the field that goes with it.
    method CopyValFrom(s2: Sym)
      requires this != s2
      modifies this
      ensures tval == s2.tval && Val() == s2.Val()
      ensures old(Blank()) && s2.Clean() ==> Clean()
      ensures name == old(name) && isLevel == old(isLevel) && slevel == old(slevel) && soft == old(soft)
    {
      tval := s2.tval;
      match tval
      case TVBool => boolVal := s2.boolVal;
      case TVInt => intVal := s2.intVal;
      case TVString => strVal := s2.strVal;
      case _ =>
    }

    method SetBool(b: bool)
      modifies this
      ensures Val() == BoolV(b) && Clean()
    {
      tval, boolVal := TVBool, b;
    }

    method SetString(s: string)
      modifies this
      ensures Val() == StrV(s) && Clean()
    {
      tval, strVal, boolVal := TVString, s, false;
    }

    // The value once the type of a comparison has been corrected.
    ghost function Result(op: Op): Value
      reads this
    {
      if IsCompareOp(op) then BoolV(boolVal) else Val()
    }

    // With no second operand the first one is moved aside and replaced by
    // zero, so that the unary operators are binary operators on zero.
    method IntOp(s2: Sym?, op: Op) returns (err: Option<Fault>)
      requires tval == TVInt && this != s2 && (s2 != null ==> s2.tval == TVInt)
      modifies this
      ensures tval == TVInt && (!IsCompareOp(op) ==> boolVal == old(boolVal))
      ensures
        var a, b := if s2 == null then 0 else old(intVal), if s2 == null then old(intVal) else s2.intVal;
        var r := Semantics.IntOp(a, b, op);
        err == r.err && (err.None? ==> Result(op) == r.v) && (err.Some? ==> intVal == a)
    {
      hide BitOp64, Wrap, Quo, Rem;
      err := None;
      var v: int64;
      if s2 == null {
        v, intVal := intVal, 0;
      } else {
        v := s2.intVal;
      }
      if IsCompareOp(op) {
        boolVal := Compare(op, intVal < v, intVal == v);
      }
      match op
      case OpXor => intVal := BitOp64(BXor, intVal, v);
      case OpCompl => intVal := Int64.Compl(v);
      case OpAdd => intVal := Wrap(intVal + v);
      case OpSub => intVal := Wrap(intVal - v);
      case OpMul => intVal := Wrap(intVal * v);
      case OpDiv => if v == 0 { err := Some(DivZero); } else { intVal := Wrap(Quo(intVal, v)); }
      case OpMod => if v == 0 { err := Some(DivZero); } else { intVal := Rem(intVal, v); }
      case OpBitAnd => intVal := BitOp64(BAnd, intVal, v);
      case OpBitOr => intVal := BitOp64(BOr, intVal, v);
      case _ =>
    }

    method BoolOp(s2: Sym?, op: Op)
      requires tval == TVBool && this != s2 && (s2 != null ==> s2.tval == TVBool)
      requires s2 == null ==> op == OpLogNeg
      modifies this
      ensures tval == TVBool
      ensures Result(op) == Semantics.BoolOp(old(boolVal), if s2 == null then false else s2.boolVal, op).v
    {
      if IsCompareOp(op) {
        boolVal := Compare(op, IntFromBool(boolVal) < IntFromBool(s2.boolVal), boolVal == s2.boolVal);
        return;
      }
      match op
      case OpLogNeg => boolVal := !boolVal;
      case OpLogAnd => boolVal := boolVal && s2.boolVal;
      case OpLogOr => boolVal := boolVal || s2.boolVal;
      case _ =>
    }

    // With no second operand the string is left as it is.
    method StrOp(s2: Sym?, op: Op)
      requires tval == TVString && this != s2 && (s2 != null ==> s2.tval == TVString)
      requires s2 == null ==> op == OpAdd
      modifies this
      ensures tval == TVString && (!IsCompareOp(op) ==> boolVal == old(boolVal))
      ensures if s2 == null then Val() == old(Val()) else Result(op) == Semantics.StrOp(old(strVal), s2.strVal, op).v
    {
      if s2 == null { return; }
      if op == OpAdd {
        strVal := strVal + s2.strVal;
        if |strVal| > MAX_STR { strVal := strVal[..MAX_STR]; }
      }
      if IsCompareOp(op) {
        boolVal := Compare(op, StrLess(strVal, s2.strVal), strVal == s2.strVal);
      }
    }

    method BinExpr(s2: Sym, op: Op) returns (err: Option<Fault>)
      requires this != s2 && Clean() && s2.Clean()
      modifies this
      ensures !IsCompareOp(op) && err.None? && s2.tval != TVUndef ==> Clean()
      ensures
        var r := Semantics.BinExpr(old(Val()), s2.Val(), op);
        err == r.err && r.v == if err.None? then Result(op) else Val()
    {
      if !(IsTypeValCompat(tval, s2.tval) && IsCompatOp(tval, op)) {
        tval := TVUndef;
        return Some(BadOp);
      }
      err := OpVal(s2, op);
    }

    // The operator of the type; an operand without a type takes it away.
    method OpVal(s2: Sym, op: Op) returns (err: Option<Fault>)
      requires this != s2 && Clean() && s2.Clean() && IsTypeValCompat(tval, s2.tval) && IsCompatOp(tval, op)
      modifies this
      ensures !IsCompareOp(op) && err.None? && s2.tval != TVUndef ==> Clean()
      ensures
        var r := Semantics.BinExpr(old(Val()), s2.Val(), op);
        err == r.err && r.v == if err.None? then Result(op) else Val()
    {
      err := None;
      if s2.tval == TVUndef { tval := TVUndef; }
      match tval
      case TVInt => err := IntOp(s2, op);
      case TVString => StrOp(s2, op);
      case TVBool => BoolOp(s2, op);
      case _ =>
    }

    // An error of a unary operator goes unnoticed.
    method UnaryExpr(op: Op)
      requires op in {OpAdd, OpSub, OpCompl, OpLogNeg} && Clean()
      modifies this
      ensures Val() == UnExpr(old(Val()), op) && (old(IsCompatOp(tval, op)) ==> Clean())
    {
      if !IsCompatOp(tval, op) {
        tval := TVUndef;
        return;
      }
      match tval
      case TVInt => var _ := IntOp(null, op);
      case TVString => StrOp(null, op);
      case TVBool => BoolOp(null, op);
      case _ =>
    }
  }
}
