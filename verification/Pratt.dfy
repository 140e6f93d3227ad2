// The expression parser (parser/pratt.go) as functions on the tokens ahead,
// and the trees it accepts: a tree comes out of the parser exactly when it
// respects precedence, and then it is the only one with its tokens.
module Pratt {
  import opened Types

  // Tokens that are not part of expressions.
  datatype Word =
    | KComma | KSemi | KColon | KQuest | KThen | KNThen
    | KLevels | KVars | KConsts | KRules | KSoft

  // What the lexer yields.  TBad is an error that consumes input; TStuck is
  // one that does not, such as a failing read.  After the last token comes the
  // end of the file.
  datatype Tok =
    | TLit(text: string) | TId(name: string) | TOp(op: Op) | TRPar | TAsig
    | TWord(word: Word)
    | TBad | TStuck

  const LPAR := TOp(OpLPar)

  predicate IsError(t: Tok) {
    t.TBad? || t.TStuck?
  }

  predicate IsExprTok(t: Tok) {
    t.TLit? || t.TId? || t.TOp? || t.TRPar? || t.TAsig?
  }

  // Tokens without a binding power start an operand of their own.
  predicate IsAtom(t: Tok) {
    t.TLit? || t.TId? || t.TAsig?
  }

  // The power of an operator between two operands.
  function Power(op: Op): (p: nat)
    ensures 4000 <= p <= 18000
  {
    match op
    case OpLogOr => 4000
    case OpLogAnd => 5000
    case OpBitAnd => 6000
    case OpXor => 7000
    case OpBitOr => 8000
    case OpEq => 9000
    case OpNEq => 9000
    case OpGEq => 10000
    case OpLEq => 10000
    case OpG => 10000
    case OpL => 10000
    case OpAdd => 13000
    case OpSub => 13000
    case OpMul => 14000
    case OpDiv => 14000
    case OpMod => 14000
    case OpLogNeg => 17000
    case OpCompl => 17000
    case OpLPar => 18000
  }

  predicate IsPrefix(op: Op) {
    op in {OpAdd, OpSub, OpCompl, OpLogNeg}
  }

  function PrefixPower(op: Op): (p: nat)
    ensures 16000 <= p <= 17000
  {
    if op == OpAdd || op == OpSub then 16000 else 17000
  }

  // Trees with the parentheses that were written, and whether an argument
  // list ended in a comma.
  datatype Cst =
    | Atom(t: Tok)
    | Call(f: string, args: seq<Cst>, comma: bool)
    | Paren(c: Cst)
    | Un(op: Op, arg: Cst)
    | Bin(op: Op, left: Cst, right: Cst)

  // ----- the parser -----

  // Err carries what is ahead when the parser gives up.
  datatype Res = Ok(c: Cst, rest: seq<Tok>) | Err(rest: seq<Tok>)

  datatype ArgsRes = ArgsOk(args: seq<Cst>, comma: bool, rest: seq<Tok>) | ArgsErr(rest: seq<Tok>)

  predicate AtError(ts: seq<Tok>) {
    ts != [] && IsError(ts[0])
  }

  // Looking at an error drops it, unless the lexer is stuck.
  function Drop(ts: seq<Tok>): (r: seq<Tok>)
    requires AtError(ts)
    ensures |r| <= |ts|
  {
    if ts[0].TBad? then ts[1..] else ts
  }

  predicate At(ts: seq<Tok>, t: Tok) {
    ts != [] && ts[0] == t
  }

  function Expect(ts: seq<Tok>, c: Cst): (r: Res)
    ensures |r.rest| <= |ts| && (r.Ok? ==> |r.rest| < |ts|)
  {
    if AtError(ts) then Err(Drop(ts)) else if At(ts, TRPar) then Ok(c, ts[1..]) else Err(ts)
  }

  function Expr(ts: seq<Tok>, rbp: int): (r: Res)
    ensures |r.rest| <= |ts| && (r.Ok? || (ts != [] && IsExprTok(ts[0])) ==> |r.rest| < |ts|)
    decreases |ts|, 2
  {
    if AtError(ts) then Err(Drop(ts))
    else if ts == [] || !IsExprTok(ts[0]) then Err(ts)
    else
      var n := Nud(ts[0], ts[1..]);
      if n.Err? then n else Loop(n.c, n.rest, rbp)
  }

  function Nud(t: Tok, ts: seq<Tok>): (r: Res)
    requires IsExprTok(t)
    ensures |r.rest| <= |ts|
    decreases |ts|, 4
  {
    if t == LPAR then Group(ts)
    else if t.TRPar? || (t.TOp? && !IsPrefix(t.op)) then Err(ts)
    else if t.TOp? then Sign(t.op, ts)
    else Operand(t, ts)
  }

  function Group(ts: seq<Tok>): (r: Res)
    ensures |r.rest| <= |ts|
    decreases |ts|, 3
  {
    var e := Expr(ts, 0);
    if e.Err? then e else Expect(e.rest, Paren(e.c))
  }

  // The operand of a sign cannot be called.
  function Sign(op: Op, ts: seq<Tok>): (r: Res)
    ensures |r.rest| <= |ts|
    decreases |ts|, 3
  {
    var e := Expr(ts, PrefixPower(op));
    if e.Err? then e else Uncalled(e.rest, Un(op, e.c))
  }

  function Uncalled(ts: seq<Tok>, c: Cst): (r: Res)
    ensures |r.rest| <= |ts|
  {
    if AtError(ts) then Err(Drop(ts)) else if At(ts, LPAR) then Err(ts[1..]) else Ok(c, ts)
  }

  function Operand(t: Tok, ts: seq<Tok>): (r: Res)
    ensures |r.rest| <= |ts|
    decreases |ts|, 3
  {
    if !t.TId? || !At(ts, LPAR) then Uncalled(ts, Atom(t))
    else
      var a := Args(ts[1..]);
      if a.ArgsErr? then Err(a.rest) else Expect(a.rest, Call(t.name, a.args, a.comma))
  }

  function Args(ts: seq<Tok>): (r: ArgsRes)
    ensures |r.rest| <= |ts|
    decreases |ts|, 4
  {
    if AtError(ts) then ArgsErr(Drop(ts))
    else if ts == [] || ts[0].TRPar? || !IsExprTok(ts[0]) then ArgsOk([], false, ts)
    else
      var e := Expr(ts, -1);
      if e.Err? then ArgsErr(e.rest)
      else
        var a := MoreArgs(e.rest);
        if a.ArgsErr? then a else ArgsOk([e.c] + a.args, a.comma, a.rest)
  }

  // After an argument: a comma and more, or nothing.
  function MoreArgs(ts: seq<Tok>): (r: ArgsRes)
    ensures |r.rest| <= |ts|
    decreases |ts|, 5
  {
    if AtError(ts) then ArgsErr(Drop(ts))
    else if !At(ts, TWord(KComma)) then ArgsOk([], false, ts)
    else
      var a := Args(ts[1..]);
      if a.ArgsErr? then a else ArgsOk(a.args, a.args == [] || a.comma, a.rest)
  }

  // Operators are taken as long as they bind tighter than rbp.
  function Loop(left: Cst, ts: seq<Tok>, rbp: int): (r: Res)
    ensures |r.rest| <= |ts|
    decreases |ts|, 1
  {
    if AtError(ts) then Err(Drop(ts))
    else if ts == [] || !IsExprTok(ts[0]) || ts[0].TRPar? then Ok(left, ts)
    else if !ts[0].TOp? then Err(ts)
    else if Power(ts[0].op) <= rbp then Ok(left, ts)
    else
      var e := Expr(ts[1..], Power(ts[0].op));
      if e.Err? then e else Loop(Bin(ts[0].op, left, e.c), e.rest, rbp)
  }

  // ----- the trees that respect precedence -----

  function Tokens(c: Cst): seq<Tok> {
    match c
    case Atom(t) => [t]
    case Call(f, args, comma) => [TId(f), LPAR] + ArgTokens(args, comma) + [TRPar]
    case Paren(d) => [LPAR] + Tokens(d) + [TRPar]
    case Un(op, arg) => [TOp(op)] + Tokens(arg)
    case Bin(op, l, r) => Tokens(l) + [TOp(op)] + Tokens(r)
  }

  function ArgTokens(args: seq<Cst>, comma: bool): seq<Tok> {
    if args == [] then []
    else
      var last := |args| == 1;
      Tokens(args[0]) + (if last && !comma then [] else [TWord(KComma)]) + ArgTokens(args[1..], comma)
  }

  // The operators on the left edge bind tighter than rbp.
  predicate Tight(c: Cst, rbp: int) {
    c.Bin? ==> Power(c.op) > rbp && Tight(c.left, rbp)
  }

  const CLOSED := 1_000_000

  // The loosest operator on the right edge: what follows the tree must not
  // bind tighter.
  function OpenRight(c: Cst): nat {
    match c
    case Un(op, arg) => Min(PrefixPower(op), OpenRight(arg))
    case Bin(op, _, r) => Min(Power(op), OpenRight(r))
    case _ => CLOSED
  }

  function Min(a: nat, b: nat): nat {
    if a < b then a else b
  }

  // A parenthesis after an atom is a call.
  predicate EndsInAtom(c: Cst) {
    match c
    case Atom(_) => true
    case Un(_, arg) => EndsInAtom(arg)
    case Bin(_, _, r) => EndsInAtom(r)
    case _ => false
  }

  // An operator that can follow the tree and take all of it as operand.
  predicate Fits(c: Cst, op: Op) {
    Power(op) <= OpenRight(c) && (op == OpLPar ==> !EndsInAtom(c))
  }

  // Precedence is respected: left operands bind at least as tightly as their
  // operator, right operands more tightly.
  predicate Proper(c: Cst) {
    match c
    case Atom(t) => IsAtom(t)
    case Call(_, args, comma) => ProperAll(args) && (comma ==> args != [])
    case Paren(d) => Proper(d)
    case Un(op, arg) => IsPrefix(op) && Proper(arg) && Tight(arg, PrefixPower(op))
    case Bin(op, l, r) => Proper(l) && Proper(r) && Fits(l, op) && Tight(r, Power(op))
  }

  predicate ProperAll(cs: seq<Cst>) {
    cs == [] || (Proper(cs[0]) && ProperAll(cs[1..]))
  }

  // What is ahead lets an expression end.
  predicate Stops(ts: seq<Tok>, rbp: int) {
    ts == [] || (!IsError(ts[0]) && !IsAtom(ts[0]) && (ts[0].TOp? ==> Power(ts[0].op) <= rbp))
  }

  // What is ahead does not take part of the tree away.
  predicate Leaves(c: Cst, ts: seq<Tok>) {
    ts != [] && ts[0].TOp? ==> Fits(c, ts[0].op)
  }

  // ----- every proper tree is parsed -----

  predicate Clean(ts: seq<Tok>) {
    ts == [] || (!IsError(ts[0]) && !IsAtom(ts[0]))
  }

  lemma {:induction false} TightAnyway(c: Cst, rbp: int)
    requires rbp < 4000
    ensures Tight(c, rbp)
    decreases c
  {
    if c.Bin? { TightAnyway(c.left, rbp); }
  }

  lemma {:induction false} TokensStart(c: Cst)
    requires Proper(c)
    ensures Tokens(c) != [] && IsExprTok(Tokens(c)[0]) && !Tokens(c)[0].TRPar?
    decreases c
  {
    if c.Bin? { TokensStart(c.left); }
  }

  // The tokens of a proper tree bring the parser to the loop, with the tree
  // in hand and the rest ahead.
  lemma {:induction false} Reaches(c: Cst, rest: seq<Tok>, rbp: int)
    requires Proper(c) && Tight(c, rbp) && Clean(rest) && Leaves(c, rest)
    ensures Expr(Tokens(c) + rest, rbp) == Loop(c, rest, rbp)
    decreases c, 1
  {
    match c
    case Atom(t) =>
      assert (Tokens(c) + rest)[1..] == rest;
      assert Operand(t, rest) == Ok(c, rest);
    case Paren(_) => ParenReaches(c, rest, rbp);
    case Un(_, _) => UnReaches(c, rest, rbp);
    case Bin(_, _, _) => BinReaches(c, rest, rbp);
    case Call(_, _, _) => CallReaches(c, rest, rbp);
  }

  lemma {:induction false} ParenReaches(c: Cst, rest: seq<Tok>, rbp: int)
    requires c.Paren? && Proper(c)
    ensures Expr(Tokens(c) + rest, rbp) == Loop(c, rest, rbp)
    decreases c, 0
  {
    var close := [TRPar] + rest;
    assert (Tokens(c) + rest)[1..] == Tokens(c.c) + close;
    TightAnyway(c.c, 0);
    Reaches(c.c, close, 0);
    assert close[1..] == rest;
    assert Group(Tokens(c.c) + close) == Ok(c, rest);
  }

  lemma {:induction false} UnReaches(c: Cst, rest: seq<Tok>, rbp: int)
    requires c.Un? && Proper(c) && Clean(rest) && Leaves(c, rest)
    ensures Expr(Tokens(c) + rest, rbp) == Loop(c, rest, rbp)
    decreases c, 0
  {
    assert (Tokens(c) + rest)[1..] == Tokens(c.arg) + rest;
    Reaches(c.arg, rest, PrefixPower(c.op));
    assert Sign(c.op, Tokens(c.arg) + rest) == Ok(c, rest);
  }

  lemma {:induction false} BinReaches(c: Cst, rest: seq<Tok>, rbp: int)
    requires c.Bin? && Proper(c) && Tight(c, rbp) && Clean(rest) && Leaves(c, rest)
    ensures Expr(Tokens(c) + rest, rbp) == Loop(c, rest, rbp)
    decreases c, 0
  {
    var next := [TOp(c.op)] + (Tokens(c.right) + rest);
    BinTokens(c.op, c.left, c.right, rest);
    assert next[1..] == Tokens(c.right) + rest;
    Reaches(c.left, next, rbp);
    Reaches(c.right, rest, Power(c.op));
  }

  lemma {:induction false} CallReaches(c: Cst, rest: seq<Tok>, rbp: int)
    requires c.Call? && Proper(c)
    ensures Expr(Tokens(c) + rest, rbp) == Loop(c, rest, rbp)
    decreases c, 0
  {
    var close := [TRPar] + rest;
    var ts := ArgTokens(c.args, c.comma) + close;
    CallTokens(c.f, c.args, c.comma, rest);
    assert ([TId(c.f)] + ([LPAR] + ts))[1..] == [LPAR] + ts;
    assert ([LPAR] + ts)[1..] == ts;
    ArgsReach(c.args, c.comma, close);
    assert close[1..] == rest;
    assert Operand(TId(c.f), [LPAR] + ts) == Ok(c, rest);
  }

  // A second operand without an operator between is an error right there.
  lemma {:induction false} AtomStops(c: Cst, rest: seq<Tok>, rbp: int)
    requires Proper(c) && Tight(c, rbp) && rest != [] && IsAtom(rest[0])
    ensures Expr(Tokens(c) + rest, rbp) == Err(rest)
    decreases c
  {
    match c
    case Atom(t) =>
      assert (Tokens(c) + rest)[1..] == rest;
      assert Operand(t, rest) == Ok(c, rest);
      LoopStops(c, rest, rbp);
    case Paren(_) =>
      ParenReaches(c, rest, rbp);
      LoopStops(c, rest, rbp);
    case Un(op, arg) =>
      var ts := Tokens(c) + rest;
      assert ts[0] == TOp(op) && ts[1..] == Tokens(arg) + rest;
      AtomStops(arg, rest, PrefixPower(op));
      assert Sign(op, ts[1..]) == Err(rest) && Nud(ts[0], ts[1..]) == Err(rest);
    case Bin(op, left, right) =>
      var next := [TOp(op)] + (Tokens(right) + rest);
      BinTokens(op, left, right, rest);
      assert next[1..] == Tokens(right) + rest;
      Reaches(left, next, rbp);
      AtomStops(right, rest, Power(op));
    case Call(_, _, _) =>
      CallReaches(c, rest, rbp);
      LoopStops(c, rest, rbp);
  }

  lemma LoopStops(c: Cst, rest: seq<Tok>, rbp: int)
    requires rest != [] && IsAtom(rest[0])
    ensures Loop(c, rest, rbp) == Err(rest)
  {
  }

  lemma {:induction false} ArgsReach(args: seq<Cst>, comma: bool, rest: seq<Tok>)
    requires ProperAll(args) && (comma ==> args != []) && At(rest, TRPar)
    ensures Args(ArgTokens(args, comma) + rest) == ArgsOk(args, comma, rest)
    decreases args, 1
  {
    if args == [] {
      assert ArgTokens(args, comma) + rest == rest;
    } else if |args| == 1 && !comma {
      assert args == [args[0]] && ArgTokens(args, comma) == Tokens(args[0]);
      TokensStart(args[0]);
      TightAnyway(args[0], -1);
      Reaches(args[0], rest, -1);
    } else {
      MoreArgsReach(args, comma, rest);
    }
  }

  lemma {:induction false} MoreArgsReach(args: seq<Cst>, comma: bool, rest: seq<Tok>)
    requires args != [] && ProperAll(args) && (|args| == 1 ==> comma) && At(rest, TRPar)
    ensures Args(ArgTokens(args, comma) + rest) == ArgsOk(args, comma, rest)
    decreases args, 0
  {
    var first, more := args[0], args[1..];
    var comma' := comma && more != [];
    var next := [TWord(KComma)] + (ArgTokens(more, comma') + rest);
    assert args == [first] + more;
    MoreArgTokens(first, more, comma, rest);
    TokensStart(first);
    TightAnyway(first, -1);
    Reaches(first, next, -1);
    assert next[1..] == ArgTokens(more, comma') + rest;
    ArgsReach(more, comma', rest);
    assert MoreArgs(next) == ArgsOk(more, comma, rest);
  }

  lemma MoreArgTokens(first: Cst, more: seq<Cst>, comma: bool, rest: seq<Tok>)
    requires more == [] ==> comma
    ensures ArgTokens([first] + more, comma) + rest ==
      Tokens(first) + ([TWord(KComma)] + (ArgTokens(more, comma && more != []) + rest))
  {
    assert ([first] + more)[1..] == more;
    assert ArgTokens(more, comma) == ArgTokens(more, comma && more != []);
  }

  // ----- every parsed tree is proper -----

  // What a tree says about the tokens that were ahead.
  predicate Read(ts: seq<Tok>, c: Cst, rest: seq<Tok>) {
    ts == Tokens(c) + rest && Proper(c) && Leaves(c, rest)
  }

  lemma {:induction false} ExprSound(ts: seq<Tok>, rbp: int)
    ensures var r := Expr(ts, rbp); r.Ok? ==> Read(ts, r.c, r.rest) && Tight(r.c, rbp) && Stops(r.rest, rbp)
    decreases |ts|, 2
  {
    if ts != [] && IsExprTok(ts[0]) {
      var n := Nud(ts[0], ts[1..]);
      NudSound(ts[0], ts[1..]);
      assert ts == [ts[0]] + ts[1..];
      if n.Ok? { LoopSound(n.c, n.rest, rbp); }
    }
  }

  lemma {:induction false} LoopSound(left: Cst, ts: seq<Tok>, rbp: int)
    requires Proper(left) && Tight(left, rbp) && Leaves(left, ts)
    ensures var r := Loop(left, ts, rbp);
      r.Ok? ==> Read(Tokens(left) + ts, r.c, r.rest) && Tight(r.c, rbp) && Stops(r.rest, rbp)
    decreases |ts|, 1
  {
    hide Tokens;
    if ts != [] && ts[0].TOp? && Power(ts[0].op) > rbp {
      var op := ts[0].op;
      var e := Expr(ts[1..], Power(op));
      ExprSound(ts[1..], Power(op));
      if e.Ok? {
        assert ts == [ts[0]] + (Tokens(e.c) + e.rest);
        BinTokens(op, left, e.c, e.rest);
        LoopSound(Bin(op, left, e.c), e.rest, rbp);
      }
    }
  }

  lemma {:induction false} NudSound(t: Tok, ts: seq<Tok>)
    requires IsExprTok(t)
    ensures var r := Nud(t, ts); r.Ok? ==> Read([t] + ts, r.c, r.rest) && !r.c.Bin?
    decreases |ts|, 3
  {
    if t == LPAR {
      ExprSound(ts, 0);
      var e := Expr(ts, 0);
      if e.Ok? && At(e.rest, TRPar) {
        assert [t] + ts == [LPAR] + Tokens(e.c) + [TRPar] + e.rest[1..];
      }
    } else if t.TOp? && IsPrefix(t.op) {
      ExprSound(ts, PrefixPower(t.op));
      var e := Expr(ts, PrefixPower(t.op));
      if e.Ok? { assert [t] + ts == [t] + Tokens(e.c) + e.rest; }
    } else if t.TId? && At(ts, LPAR) {
      CallSound(t, ts);
    }
  }

  lemma {:induction false} CallSound(t: Tok, ts: seq<Tok>)
    requires t.TId? && At(ts, LPAR)
    ensures var r := Nud(t, ts); r.Ok? ==> Read([t] + ts, r.c, r.rest) && !r.c.Bin?
    decreases |ts|, 0
  {
    ArgsSound(ts[1..]);
    CallRead(t, ts);
  }

  lemma CallRead(t: Tok, ts: seq<Tok>)
    requires t.TId? && At(ts, LPAR)
    requires
      var a := Args(ts[1..]);
      a.ArgsOk? ==> ts[1..] == ArgTokens(a.args, a.comma) + a.rest && ProperAll(a.args) && (a.comma ==> a.args != [])
    ensures var r := Nud(t, ts); r.Ok? ==> Read([t] + ts, r.c, r.rest) && !r.c.Bin?
  {
    hide Tokens, ArgTokens, Args, ProperAll;
    var a := Args(ts[1..]);
    if a.ArgsOk? && At(a.rest, TRPar) {
      assert ts == [LPAR] + ts[1..] && a.rest == [TRPar] + a.rest[1..];
      CallTokens(t.name, a.args, a.comma, a.rest[1..]);
    }
  }

  lemma BinTokens(op: Op, l: Cst, r: Cst, rest: seq<Tok>)
    ensures Tokens(l) + ([TOp(op)] + (Tokens(r) + rest)) == Tokens(Bin(op, l, r)) + rest
  {
  }

  lemma CallTokens(f: string, args: seq<Cst>, comma: bool, rest: seq<Tok>)
    ensures [TId(f)] + ([LPAR] + (ArgTokens(args, comma) + ([TRPar] + rest))) == Tokens(Call(f, args, comma)) + rest
  {
  }

  lemma {:induction false} ArgsSound(ts: seq<Tok>)
    ensures var r := Args(ts);
      r.ArgsOk? ==>
        && ts == ArgTokens(r.args, r.comma) + r.rest && ProperAll(r.args)
        && (r.comma ==> r.args != [])
    decreases |ts|, 4
  {
    if ts != [] && IsExprTok(ts[0]) && !ts[0].TRPar? {
      ExprSound(ts, -1);
      var e := Expr(ts, -1);
      if e.Ok? {
        MoreArgsSound(e.rest);
        var a := MoreArgs(e.rest);
        if a.ArgsOk? { OneMoreArg(e.c, a.args, a.comma, a.rest); }
      }
    }
  }

  lemma {:induction false} MoreArgsSound(ts: seq<Tok>)
    ensures var r := MoreArgs(ts);
      r.ArgsOk? ==> ProperAll(r.args) && ts == AfterFirst(r.args, r.comma) + r.rest
    decreases |ts|, 5
  {
    if At(ts, TWord(KComma)) {
      ArgsSound(ts[1..]);
      var a := Args(ts[1..]);
      if a.ArgsOk? { AfterComma(ts, a.args, a.comma, a.rest); }
    }
  }

  lemma AfterComma(ts: seq<Tok>, more: seq<Cst>, comma: bool, rest: seq<Tok>)
    requires At(ts, TWord(KComma)) && ts[1..] == ArgTokens(more, comma) + rest && (comma ==> more != [])
    ensures ts == AfterFirst(more, more == [] || comma) + rest
  {
    assert ts == [TWord(KComma)] + ts[1..];
    if more == [] { assert ArgTokens(more, comma) == ArgTokens(more, true) == []; }
  }

  lemma OneMoreArg(c: Cst, more: seq<Cst>, comma: bool, rest: seq<Tok>)
    ensures Tokens(c) + (AfterFirst(more, comma) + rest) == ArgTokens([c] + more, comma) + rest
    ensures Proper(c) && ProperAll(more) ==> ProperAll([c] + more)
  {
    assert ([c] + more)[1..] == more;
    assert ArgTokens([c] + more, comma) == Tokens(c) + AfterFirst(more, comma);
  }

  // What follows the first argument.
  function AfterFirst(more: seq<Cst>, comma: bool): seq<Tok> {
    if more == [] && !comma then [] else [TWord(KComma)] + ArgTokens(more, comma)
  }

  // ----- exactly the proper trees -----

  // The parser returns a tree exactly when the tree respects precedence, its
  // tokens are those taken, and what is ahead ends the expression without
  // belonging to it.
  lemma ParseExact(ts: seq<Tok>, rbp: int, c: Cst, rest: seq<Tok>)
    ensures Expr(ts, rbp) == Ok(c, rest) <==>
      ts == Tokens(c) + rest && Proper(c) && Tight(c, rbp) && Leaves(c, rest) && Stops(rest, rbp)
  {
    ExprSound(ts, rbp);
    if ts == Tokens(c) + rest && Proper(c) && Tight(c, rbp) && Leaves(c, rest) && Stops(rest, rbp) {
      Reaches(c, rest, rbp);
    }
  }

  // Two trees that respect precedence and have the same tokens are equal.
  lemma Unique(c: Cst, d: Cst)
    requires Proper(c) && Proper(d) && Tokens(c) == Tokens(d)
    ensures c == d
  {
    TightAnyway(c, -1);
    TightAnyway(d, -1);
    assert Tokens(c) + [] == Tokens(c) && Tokens(d) + [] == Tokens(d);
    ParseExact(Tokens(c), -1, c, []);
    ParseExact(Tokens(c), -1, d, []);
  }
}
