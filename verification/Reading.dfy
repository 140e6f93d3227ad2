// The expression parser step by step: how the names it looks up and the
// tokens it takes add up (parser/pratt.go).
module Reading {
  import opened Types
  import opened Pratt
  import opened Descent

  predicate Suffix(b: seq<Tok>, a: seq<Tok>) {
    |b| <= |a| && a[|a| - |b|..] == b
  }

  lemma SuffixTrans(c: seq<Tok>, b: seq<Tok>, a: seq<Tok>)
    requires Suffix(c, b) && Suffix(b, a)
    ensures Suffix(c, a) && Descent.Read(a, c) == Descent.Read(a, b) + Descent.Read(b, c)
  {
    assert a[|a| - |c|..] == a[|a| - |b|..][|b| - |c|..];
  }

  // What is ahead afterwards is the end of what was ahead.
  lemma {:induction false} ExprSuffix(ts: seq<Tok>, rbp: int)
    ensures Suffix(Expr(ts, rbp).rest, ts)
    decreases |ts|, 2, 0
  {
    if ts != [] && IsExprTok(ts[0]) {
      NudSuffix(ts[0], ts[1..]);
      var n := Nud(ts[0], ts[1..]);
      SuffixTrans(n.rest, ts[1..], ts);
      if n.Ok? {
        LoopSuffix(n.c, n.rest, rbp);
        SuffixTrans(Loop(n.c, n.rest, rbp).rest, n.rest, ts);
      }
    }
  }

  // One token, or none, or a dropped error.
  lemma TailSuffix(ts: seq<Tok>, c: Cst)
    ensures Suffix(ts, ts) && (ts != [] ==> Suffix(ts[1..], ts))
    ensures AtError(ts) ==> Suffix(Drop(ts), ts)
    ensures Suffix(Expect(ts, c).rest, ts)
  {
  }

  lemma UncalledSuffix(ts: seq<Tok>, c: Cst, from: seq<Tok>)
    requires Suffix(ts, from)
    ensures Suffix(Uncalled(ts, c).rest, from) && Suffix(Expect(ts, c).rest, from)
  {
    TailSuffix(ts, c);
    SuffixTrans(Uncalled(ts, c).rest, ts, from);
    SuffixTrans(Expect(ts, c).rest, ts, from);
  }

  lemma {:induction false} NudSuffix(t: Tok, ts: seq<Tok>)
    requires IsExprTok(t)
    ensures Suffix(Nud(t, ts).rest, ts)
    decreases |ts|, 4
  {
    if t == LPAR {
      GroupSuffix(ts);
    } else if t.TOp? && IsPrefix(t.op) {
      SignSuffix(t.op, ts);
    } else if !t.TOp? && !t.TRPar? {
      OperandSuffix(t, ts);
    }
  }

  lemma {:induction false} GroupSuffix(ts: seq<Tok>)
    ensures Suffix(Group(ts).rest, ts)
    decreases |ts|, 3
  {
    ExprSuffix(ts, 0);
    var e := Expr(ts, 0);
    if e.Ok? { UncalledSuffix(e.rest, Paren(e.c), ts); }
  }

  lemma {:induction false} SignSuffix(op: Op, ts: seq<Tok>)
    ensures Suffix(Sign(op, ts).rest, ts)
    decreases |ts|, 3
  {
    ExprSuffix(ts, PrefixPower(op));
    var e := Expr(ts, PrefixPower(op));
    if e.Ok? { UncalledSuffix(e.rest, Un(op, e.c), ts); }
  }

  lemma {:induction false} OperandSuffix(t: Tok, ts: seq<Tok>)
    ensures Suffix(Operand(t, ts).rest, ts)
    decreases |ts|, 3
  {
    UncalledSuffix(ts, Atom(t), ts);
    if t.TId? && At(ts, LPAR) {
      ArgsSuffix(ts[1..]);
      var a := Args(ts[1..]);
      SuffixTrans(a.rest, ts[1..], ts);
      if a.ArgsOk? { UncalledSuffix(a.rest, Call(t.name, a.args, a.comma), ts); }
    }
  }

  lemma {:induction false} ArgsSuffix(ts: seq<Tok>)
    ensures Suffix(Args(ts).rest, ts)
    decreases |ts|, 4
  {
    if ts != [] && IsExprTok(ts[0]) && !ts[0].TRPar? {
      ExprSuffix(ts, -1);
      var e := Expr(ts, -1);
      if e.Ok? {
        MoreArgsSuffix(e.rest);
        SuffixTrans(MoreArgs(e.rest).rest, e.rest, ts);
      }
    }
  }

  lemma {:induction false} MoreArgsSuffix(ts: seq<Tok>)
    ensures Suffix(MoreArgs(ts).rest, ts)
    decreases |ts|, 5
  {
    if At(ts, TWord(KComma)) {
      ArgsSuffix(ts[1..]);
      SuffixTrans(Args(ts[1..]).rest, ts[1..], ts);
    }
  }

  lemma {:induction false} LoopSuffix(left: Cst, ts: seq<Tok>, rbp: int)
    ensures Suffix(Loop(left, ts, rbp).rest, ts)
    decreases |ts|, 1
  {
    if ts != [] && ts[0].TOp? && Power(ts[0].op) > rbp {
      var op := ts[0].op;
      ExprSuffix(ts[1..], Power(op));
      var e := Expr(ts[1..], Power(op));
      SuffixTrans(e.rest, ts[1..], ts);
      if e.Ok? {
        LoopSuffix(Bin(op, left, e.c), e.rest, rbp);
        SuffixTrans(Loop(Bin(op, left, e.c), e.rest, rbp).rest, e.rest, ts);
      }
    }
  }

  lemma {:induction false} LookUpConcat(n: Names, a: seq<Tok>, b: seq<Tok>)
    requires n.envs != [] && n.errs < MAX_ERRORS
    ensures LookUp(n, a + b) == var m := LookUp(n, a); if m.Abort? then m else LookUp(m.value, b)
    decreases a
  {
    if a == [] {
      assert a + b == b;
    } else {
      assert (a + b)[0] == a[0] && (a + b)[1..] == a[1..] + b;
      if !a[0].TId? || Declared(n.envs, a[0].name) {
        LookUpConcat(n, a[1..], b);
      } else if n.errs + 1 < MAX_ERRORS {
        LookUpConcat(Names(n.errs + 1, Declare(n.envs, a[0].name)), a[1..], b);
      }
    }
  }

  lemma MoveOn(s: State, b: seq<Tok>, c: seq<Tok>)
    requires Ready(s) && Suffix(b, s.ahead) && Suffix(c, b)
    ensures MoveTo(s, c) == var m := MoveTo(s, b); if m.Abort? then m else MoveTo(m.value, c)
  {
    SuffixTrans(c, b, s.ahead);
    LookUpConcat(Names(s.errs, s.envs), Descent.Read(s.ahead, b), Descent.Read(b, c));
  }

  // Looking costs nothing, and so does taking a token that is not a name.
  lemma TakeNothing(s: State)
    requires Ready(s)
    ensures MoveTo(s, s.ahead) == Go(s) && Suffix(s.ahead, s.ahead)
  {
    assert |Descent.Read(s.ahead, s.ahead)| == 0;
  }

  lemma TakeTok(s: State)
    requires Ready(s) && s.ahead != [] && !s.ahead[0].TId?
    ensures MoveTo(s, s.ahead[1..]) == Go(Advance(s)) && Suffix(s.ahead[1..], s.ahead)
  {
    LookUpPlain(Names(s.errs, s.envs), Descent.Read(s.ahead, s.ahead[1..]));
  }

  lemma LookUpPlain(n: Names, read: seq<Tok>)
    requires n.envs != [] && n.errs < MAX_ERRORS && |read| == 1 && !read[0].TId?
    ensures LookUp(n, read) == Go(n)
  {
    assert |read[1..]| == 0;
  }

  lemma TakeOne(s: State)
    requires Ready(s)
    ensures MoveTo(s, s.ahead) == Go(s) && Suffix(s.ahead, s.ahead)
    ensures MoveTo(s, Peeked(s).ahead) == Go(Peeked(s)) && Suffix(Peeked(s).ahead, s.ahead)
    ensures s.ahead != [] && !s.ahead[0].TId? ==>
      MoveTo(s, s.ahead[1..]) == Go(Advance(s)) && Suffix(s.ahead[1..], s.ahead)
  {
    TakeNothing(s);
    if s.ahead != [] && !s.ahead[0].TId? { TakeTok(s); }
  }

  // From one state to the end of a result, if the names allow it.
  function Then(m: Outcome<State>, rest: seq<Tok>): Outcome<State>
    requires m.Go? ==> Ready(m.value) && |rest| <= |m.value.ahead|
  {
    if m.Abort? then m else MoveTo(m.value, rest)
  }

  // An expression is an operand, then what the loop makes of it.
  lemma ExprSteps(s: State, rbp: int)
    requires Ready(s) && s.ahead != [] && IsExprTok(s.ahead[0])
    ensures
      var e, n := Expr(s.ahead, rbp), Nud(s.ahead[0], s.ahead[1..]);
      if n.Err? then e == n
      else
        && e == Loop(n.c, n.rest, rbp)
        && MoveTo(s, e.rest) == Then(MoveTo(s, n.rest), e.rest)
  {
    var n := Nud(s.ahead[0], s.ahead[1..]);
    NudSuffix(s.ahead[0], s.ahead[1..]);
    SuffixTrans(n.rest, s.ahead[1..], s.ahead);
    if n.Ok? {
      LoopSuffix(n.c, n.rest, rbp);
      MoveOn(s, n.rest, Loop(n.c, n.rest, rbp).rest);
    }
  }

  // One round of the loop: the right operand, then the rest.
  lemma LoopSteps(s: State, left: Cst, rbp: int)
    requires Ready(s) && s.ahead != [] && s.ahead[0].TOp? && Power(s.ahead[0].op) > rbp
    ensures
      var op := s.ahead[0].op;
      var l, e := Loop(left, s.ahead, rbp), Expr(s.ahead[1..], Power(op));
      && MoveTo(s, e.rest) == MoveTo(Advance(s), e.rest)
      && (if e.Err? then l == e
          else
            && l == Loop(Bin(op, left, e.c), e.rest, rbp)
            && MoveTo(s, l.rest) == Then(MoveTo(s, e.rest), l.rest))
  {
    var op := s.ahead[0].op;
    var e := Expr(s.ahead[1..], Power(op));
    ExprAfter(s, Power(op));
    if e.Ok? {
      var b := Bin(op, left, e.c);
      LoopSuffix(b, e.rest, rbp);
      MoveOn(s, e.rest, Loop(b, e.rest, rbp).rest);
    }
  }

  lemma ExprAfter(s: State, rbp: int)
    requires Ready(s) && s.ahead != [] && !s.ahead[0].TId?
    ensures var e := Expr(s.ahead[1..], rbp);
      MoveTo(s, e.rest) == MoveTo(Advance(s), e.rest) && Suffix(e.rest, s.ahead)
  {
    var e := Expr(s.ahead[1..], rbp);
    TakeTok(s);
    ExprSuffix(s.ahead[1..], rbp);
    MoveOn(s, s.ahead[1..], e.rest);
    SuffixTrans(e.rest, s.ahead[1..], s.ahead);
  }

  // Closing a parenthesis, or not; and being called, or not.
  lemma CloseSteps(s: State, c: Cst)
    requires Ready(s)
    ensures MoveTo(s, Expect(s.ahead, c).rest) == Go(if At(s.ahead, TRPar) then Advance(s) else Peeked(s))
    ensures MoveTo(s, Uncalled(s.ahead, c).rest) == Go(if At(s.ahead, LPAR) then Advance(s) else Peeked(s))
  {
    TakeNothing(s);
    if AtError(s.ahead) || At(s.ahead, TRPar) || At(s.ahead, LPAR) { TakeTok(s); }
    assert Expect(s.ahead, c).rest == if At(s.ahead, TRPar) then s.ahead[1..] else Peeked(s).ahead;
    assert Uncalled(s.ahead, c).rest == if At(s.ahead, LPAR) then s.ahead[1..] else Peeked(s).ahead;
  }

  // A parenthesis is taken, then an expression, then the closing one.
  lemma GroupSteps(s: State)
    requires Ready(s)
    ensures
      var e := Expr(s.ahead, 0);
      e.Ok? ==> MoveTo(s, Group(s.ahead).rest) == Then(MoveTo(s, e.rest), Expect(e.rest, Paren(e.c)).rest)
  {
    var e := Expr(s.ahead, 0);
    ExprSuffix(s.ahead, 0);
    if e.Ok? {
      UncalledSuffix(e.rest, Paren(e.c), e.rest);
      MoveOn(s, e.rest, Expect(e.rest, Paren(e.c)).rest);
    }
  }

  // The operand of a sign, and no parenthesis to call it.
  lemma SignSteps(s: State, op: Op)
    requires Ready(s)
    ensures
      var e := Expr(s.ahead, PrefixPower(op));
      e.Ok? ==> MoveTo(s, Sign(op, s.ahead).rest) == Then(MoveTo(s, e.rest), Uncalled(e.rest, Un(op, e.c)).rest)
  {
    var e := Expr(s.ahead, PrefixPower(op));
    ExprSuffix(s.ahead, PrefixPower(op));
    if e.Ok? {
      UncalledSuffix(e.rest, Un(op, e.c), e.rest);
      MoveOn(s, e.rest, Uncalled(e.rest, Un(op, e.c)).rest);
    }
  }

  // A token is taken, then the rest of what starts with it.
  lemma NudSteps(s: State)
    requires Ready(s) && s.ahead != [] && IsExprTok(s.ahead[0])
    ensures
      var t, ts := s.ahead[0], s.ahead[1..];
      MoveTo(s, Nud(t, ts).rest) == Then(MoveTo(s, ts), Nud(t, ts).rest)
  {
    var t, ts := s.ahead[0], s.ahead[1..];
    NudSuffix(t, ts);
    assert Suffix(ts, s.ahead);
    MoveOn(s, ts, Nud(t, ts).rest);
  }

  // The arguments of a call, then the closing parenthesis.
  lemma CallSteps(s: State, name: string)
    requires Ready(s) && At(s.ahead, LPAR)
    ensures
      var n, a := Operand(TId(name), s.ahead), Args(s.ahead[1..]);
      a.ArgsOk? ==>
        MoveTo(s, n.rest) == Then(MoveTo(s, a.rest), Expect(a.rest, Call(name, a.args, a.comma)).rest)
  {
    var a := Args(s.ahead[1..]);
    ArgsRestSuffix(s.ahead);
    if a.ArgsOk? { ExpectAfter(s, a.rest, Call(name, a.args, a.comma)); }
  }

  lemma ArgsRestSuffix(ts: seq<Tok>)
    requires ts != []
    ensures Suffix(Args(ts[1..]).rest, ts)
  {
    ArgsSuffix(ts[1..]);
    assert Suffix(ts[1..], ts);
    SuffixTrans(Args(ts[1..]).rest, ts[1..], ts);
  }

  lemma ExpectAfter(s: State, ts: seq<Tok>, c: Cst)
    requires Ready(s) && Suffix(ts, s.ahead)
    ensures MoveTo(s, Expect(ts, c).rest) == Then(MoveTo(s, ts), Expect(ts, c).rest)
  {
    UncalledSuffix(ts, c, ts);
    MoveOn(s, ts, Expect(ts, c).rest);
  }

  // The first argument, then the others.
  lemma ArgsSteps(s: State)
    requires Ready(s) && s.ahead != [] && IsExprTok(s.ahead[0]) && !s.ahead[0].TRPar?
    ensures
      var e := Expr(s.ahead, -1);
      e.Ok? ==> MoveTo(s, Args(s.ahead).rest) == Then(MoveTo(s, e.rest), MoreArgs(e.rest).rest)
  {
    var e := Expr(s.ahead, -1);
    ExprSuffix(s.ahead, -1);
    if e.Ok? {
      MoreArgsSuffix(e.rest);
      MoveOn(s, e.rest, MoreArgs(e.rest).rest);
    }
  }

  // Arguments after a parenthesis or a comma.
  lemma ArgsAfter(s: State)
    requires Ready(s) && s.ahead != [] && !s.ahead[0].TId?
    ensures var a := Args(s.ahead[1..]); MoveTo(s, a.rest) == MoveTo(Advance(s), a.rest)
  {
    TakeOne(s);
    ArgsSuffix(s.ahead[1..]);
    MoveOn(s, s.ahead[1..], Args(s.ahead[1..]).rest);
  }
}
