// The type tables of the rule language and the compatibility tests on them
// (types/type.go), together with the operators the tests speak about.
module Types {

  datatype TypeVal = TVUndef | TVUniv | TVInt | TVFloat | TVBool | TVString

  datatype TypeExpr = TEUndef | TEExpr | TEExternal | TEMsg | TEGraph | TEMsgGraph

  datatype Type = Type(tval: TypeVal, texpr: TypeExpr)

  const INT_TYPE := Type(TVInt, TEExpr)
  const STRING_TYPE := Type(TVString, TEExpr)
  const BOOL_TYPE := Type(TVBool, TEExpr)
  const UNIV_TYPE := Type(TVUniv, TEExpr)

  // The operators an expression node can carry.  OpCompl, OpLogNeg and OpLPar
  // can stand between two operands: the parser gives them an infix power.
  datatype Op =
    | OpXor | OpCompl | OpAdd | OpSub | OpMul | OpDiv | OpMod | OpBitAnd | OpBitOr
    | OpG | OpL | OpEq | OpNEq | OpGEq | OpLEq
    | OpLogAnd | OpLogOr | OpLogNeg | OpLPar

  predicate IsCompareOp(op: Op) {
    op in {OpEq, OpG, OpL, OpNEq, OpGEq, OpLEq}
  }

  predicate IsTypeValCompat(a: TypeVal, b: TypeVal) {
    a == TVUndef || b == TVUndef || a == TVUniv || b == TVUniv || a == b
  }

  predicate IsTypeExprCompatSpecial(a: TypeExpr, b: TypeExpr) {
    a == TEMsgGraph && (b == TEMsg || b == TEGraph)
  }

  predicate IsTypeExprCompat(a: TypeExpr, b: TypeExpr) {
    || a == TEUndef || b == TEUndef
    || a == TEExpr || b == TEExpr
    || IsTypeExprCompatSpecial(a, b) || IsTypeExprCompatSpecial(b, a)
    || a == b
  }

  predicate IsTypeCompat(a: Type, b: Type) {
    IsTypeValCompat(a.tval, b.tval) && IsTypeExprCompat(a.texpr, b.texpr)
  }

  predicate IsCompatOp(t: TypeVal, op: Op) {
    match t
    case TVInt =>
      op in {OpAdd, OpSub, OpMul, OpDiv, OpMod, OpBitAnd, OpBitOr, OpCompl, OpXor} || IsCompareOp(op)
    case TVFloat =>
      op in {OpAdd, OpSub, OpMul, OpDiv} || IsCompareOp(op)
    case TVBool =>
      IsCompareOp(op) || op in {OpLogAnd, OpLogOr, OpLogNeg}
    case TVString =>
      op == OpAdd || IsCompareOp(op)
    case TVUniv => true
    case TVUndef => true
  }

  predicate IsTypeUndef(t: Type) {
    t.tval == TVUndef || t.texpr == TEUndef
  }
}
