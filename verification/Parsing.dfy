// The parser as it runs (parser/pratt.go, parser/desc.go): a cursor on the
// tokens, an error count and a stack of environments that its methods change.
// Every method is proved to do what the functions of Pratt and Descent say,
// and to end on every input.
module Parsing {
  import opened Types
  import opened Pratt
  import opened Printing
  import opened Descent
  import opened Reading

  datatype Look = Next(t: Tok) | EndOfFile | LexError

  datatype Match = Matched | NoMatch | MatchError

  // An expression, a wrong one, or the end of the parse after too many errors.
  datatype Found = Tree(a: Ast) | Wrong | TooMany

  // The end of a parsing method; GaveUp is the panic after too many errors.
  datatype Ending = Ended(failed: bool) | GaveUp

  function FoundAs(v: Outcome<State>, r: Res): Found {
    if v.Abort? then TooMany else if r.Ok? then Tree(Strip(r.c)) else Wrong
  }

  // Arguments, a wrong one, or too many errors.
  datatype FoundArgs = Args(es: seq<Ast>) | WrongArgs | TooManyArgs

  // What was read after some arguments.
  function ArgsAs(before: seq<Ast>, v: Outcome<State>, a: ArgsRes): FoundArgs {
    if v.Abort? then TooManyArgs else if a.ArgsOk? then Args(before + StripAll(a.args)) else WrongArgs
  }

  // The power of a token between operands; no power makes it an operand.
  function BindPow(t: Tok): nat {
    if t.TOp? then Power(t.op) else if t.TRPar? then 1 else 0
  }

  class Parser {
    const input: seq<Tok>
    var pos: nat
    var errs: nat
    var envs: seq<set<string>>
    var prog: Program

    constructor (tokens: seq<Tok>, names: seq<set<string>>)
      requires names != []
      ensures View() == Go(State(tokens, 0, names, Program([], [], [])))
    {
      input, pos, errs, envs, prog := tokens, 0, 0, names, Program([], [], []);
    }

    // The state of the parser, until it has too many errors.
    ghost function View(): Outcome<State>
      reads this
    {
      if pos <= |input| && envs != [] && errs < MAX_ERRORS then Go(State(input[pos..], errs, envs, prog)) else Abort
    }

    // ----- tokens -----

    // Looking at an error drops it; otherwise nothing is taken.
    method Peek(ghost s: State) returns (l: Look)
      requires View() == Go(s)
      modifies this`pos
      ensures View() == Go(Peeked(s))
      ensures l == if AtError(s.ahead) then LexError else if s.ahead == [] then EndOfFile else Next(s.ahead[0])
    {
      if pos == |input| { return EndOfFile; }
      var t := input[pos];
      if t.TBad? {
        pos := pos + 1;
        return LexError;
      }
      l := if t.TStuck? then LexError else Next(t);
    }

    method Lex(ghost s: State)
      requires View() == Go(s) && s.ahead != []
      modifies this`pos
      ensures View() == Go(Advance(s))
    {
      pos := pos + 1;
    }

    method MatchTok(t: Tok, ghost s: State) returns (m: Match)
      requires View() == Go(s) && !IsError(t)
      modifies this`pos
      ensures m == if AtError(s.ahead) then MatchError else if At(s.ahead, t) then Matched else NoMatch
      ensures View() == Go(if m.Matched? then Advance(s) else Peeked(s))
    {
      var l := Peek(s);
      if l == LexError { return MatchError; }
      if l != Next(t) { return NoMatch; }
      Lex(s);
      m := Matched;
    }

    // ----- expressions -----

    // A name that is not declared costs an error and is declared.
    method SetExprVal(t: Tok, ghost s: State) returns (ok: bool)
      requires At(s.ahead, t) && Ready(s) && View() == Go(Advance(s)) && !IsError(t)
      modifies this`errs, this`envs
      ensures View() == MoveTo(s, s.ahead[1..]) && ok == View().Go?
    {
      TakeOne(s);
      if !t.TId? { return true; }
      LookedUp(s);
      var known := GetSym(t.name);
      if known { return true; }
      ok := Errorf(Advance(s));
      if ok { envs := envs[|envs| - 1 := envs[|envs| - 1] + {t.name}]; }
    }

    lemma LookedUp(s: State)
      requires Ready(s) && AtId(s.ahead)
      ensures MoveTo(s, s.ahead[1..]) ==
        if Declared(s.envs, s.ahead[0].name) then Go(Advance(s))
        else if s.errs + 1 >= MAX_ERRORS then Abort
        else Go(Advance(s).(errs := s.errs + 1, envs := Declare(s.envs, s.ahead[0].name)))
    {
      var n, read := Names(s.errs, s.envs), Descent.Read(s.ahead, s.ahead[1..]);
      assert read == [s.ahead[0]] && read[1..] == [];
      var name := s.ahead[0].name;
      if !Declared(n.envs, name) && n.errs + 1 < MAX_ERRORS {
        var m := Names(n.errs + 1, Declare(n.envs, name));
        assert LookUp(n, read) == LookUp(m, read[1..]) == Go(m);
      }
    }

    // From the innermost environment outwards.
    method GetSym(name: string) returns (found: bool)
      ensures found == Declared(envs, name)
    {
      var i := |envs|;
      while i > 0
        invariant 0 <= i <= |envs|
        invariant forall k | i <= k < |envs| :: name !in envs[k]
      {
        i := i - 1;
        if name in envs[i] { return true; }
      }
      found := false;
    }

    method Errorf(ghost s: State) returns (ok: bool)
      requires View() == Go(s)
      modifies this`errs
      ensures View() == Error(s) && ok == View().Go?
    {
      errs := errs + 1;
      ok := errs < MAX_ERRORS;
    }

    method Expr(rbp: int, ghost s: State) returns (r: Found)
      requires View() == Go(s)
      modifies this`pos, this`errs, this`envs
      ensures var e := Pratt.Expr(s.ahead, rbp); View() == MoveTo(s, e.rest) && r == FoundAs(View(), e)
      decreases |s.ahead|, 2
    {
      TakeOne(s);
      var l := Peek(s);
      if l == LexError || l == EndOfFile || !IsExprTok(l.t) { return Wrong; }
      ExprSteps(s, rbp);
      Lex(s);
      r := Nud(l.t, s);
      if r.Tree? {
        ghost var n := Pratt.Nud(l.t, s.ahead[1..]);
        r := ExprLoop(rbp, r.a, n.c, View().value);
      }
    }

    // The operators that bind tighter than rbp, one after the other.
    method ExprLoop(rbp: int, first: Ast, ghost c0: Cst, ghost s: State) returns (r: Found)
      requires View() == Go(s) && first == Strip(c0)
      modifies this`pos, this`errs, this`envs
      ensures (View(), r) == LoopFound(c0, s, rbp)
      decreases |s.ahead|, 1
    {
      var left := first;
      ghost var c, now := c0, s;
      while true
        invariant View() == Go(now) && left == Strip(c)
        invariant LoopFound(c0, s, rbp) == LoopFound(c, now, rbp)
        decreases |now.ahead|
      {
        var l := Peek(now);
        if l == LexError {
          LoopAtError(c, now, rbp);
          return Wrong;
        }
        if l == EndOfFile || !IsExprTok(l.t) || l.t.TRPar? {
          LoopHere(c, now, rbp);
          return Tree(left);
        }
        var power := BindPow(l.t);
        if power == 0 {
          LoopAtAtom(c, now, rbp);
          return Wrong;
        }
        if power <= rbp {
          LoopHere(c, now, rbp);
          return Tree(left);
        }
        LoopRound(c, now, rbp);
        Lex(now);
        r := Led(left, l.t, Advance(now));
        if !r.Tree? { return; }
        ghost var e := Pratt.Expr(now.ahead[1..], power);
        StripBin(l.t.op, c, e.c);
        left, c, now := r.a, Bin(l.t.op, c, e.c), View().value;
      }
    }

    // Where the loop ends, and with what.
    ghost function LoopFound(c: Cst, s: State, rbp: int): (Outcome<State>, Found)
      requires Ready(s)
    {
      var e := Pratt.Loop(c, s.ahead, rbp);
      var v := MoveTo(s, e.rest);
      (v, FoundAs(v, e))
    }

    lemma LoopRound(c: Cst, s: State, rbp: int)
      requires Ready(s) && s.ahead != [] && s.ahead[0].TOp? && Power(s.ahead[0].op) > rbp
      ensures
        var op := s.ahead[0].op;
        var e := Pratt.Expr(s.ahead[1..], Power(op));
        var v := MoveTo(Advance(s), e.rest);
        LoopFound(c, s, rbp) ==
          if v.Abort? then (v, TooMany) else if e.Err? then (v, Wrong) else LoopFound(Bin(op, c, e.c), v.value, rbp)
    {
      LoopSteps(s, c, rbp);
    }

    lemma LoopAtError(c: Cst, s: State, rbp: int)
      requires Ready(s) && AtError(s.ahead)
      ensures LoopFound(c, s, rbp) == (Go(Peeked(s)), Wrong)
    {
      assert Pratt.Loop(c, s.ahead, rbp) == Err(Peeked(s).ahead);
      TakeNothing(s);
      TakeTok(s);
    }

    // The loop ends before what no expression goes on with, and before an
    // operator that binds too loosely.
    lemma LoopHere(c: Cst, s: State, rbp: int)
      requires Ready(s) && Pratt.Loop(c, s.ahead, rbp) == Ok(c, s.ahead)
      ensures LoopFound(c, s, rbp) == (Go(s), Tree(Strip(c)))
    {
      TakeNothing(s);
    }

    lemma LoopAtAtom(c: Cst, s: State, rbp: int)
      requires Ready(s) && s.ahead != [] && IsAtom(s.ahead[0])
      ensures LoopFound(c, s, rbp) == (Go(s), Wrong)
    {
      assert Pratt.Loop(c, s.ahead, rbp) == Err(s.ahead);
      TakeNothing(s);
    }

    lemma StripBin(op: Op, l: Cst, r: Cst)
      ensures Strip(Bin(op, l, r)) == Binary(op, Strip(l), Strip(r))
    {
    }

    // The right operand of an operator.
    method Led(left: Ast, t: Tok, ghost s: State) returns (r: Found)
      requires View() == Go(s) && t.TOp?
      modifies this`pos, this`errs, this`envs
      ensures var e := Pratt.Expr(s.ahead, Power(t.op));
        View() == MoveTo(s, e.rest) && r == match FoundAs(View(), e)
          case Tree(a) => Tree(Binary(t.op, left, a))
          case f => f
      decreases |s.ahead|, 3
    {
      r := Expr(BindPow(t), s);
      if r.Tree? { r := Tree(Binary(t.op, left, r.a)); }
    }

    // An expression in parentheses, a sign with its operand, a literal, a name
    // or a call.
    method Nud(t: Tok, ghost s: State) returns (r: Found)
      requires At(s.ahead, t) && IsExprTok(t) && Ready(s) && View() == Go(Advance(s))
      modifies this`pos, this`errs, this`envs
      ensures var n := Pratt.Nud(t, s.ahead[1..]); View() == MoveTo(s, n.rest) && r == FoundAs(View(), n)
      decreases |s.ahead|, 0
    {
      NudSteps(s);
      var ok := SetExprVal(t, s);
      if !ok { return TooMany; }
      ghost var now := View().value;
      if t == LPAR {
        r := ParenExpr(now);
      } else if BindPow(t) == 0 {
        r := Operand(t, now);
      } else if t.TOp? && IsPrefix(t.op) {
        r := Sign(t.op, now);
      } else {
        TakeOne(now);
        r := Wrong;
      }
    }

    method ParenExpr(ghost s: State) returns (r: Found)
      requires View() == Go(s)
      modifies this`pos, this`errs, this`envs
      ensures var n := Group(s.ahead); View() == MoveTo(s, n.rest) && r == FoundAs(View(), n)
      decreases |s.ahead|, 3
    {
      GroupSteps(s);
      r := Expr(0, s);
      if !r.Tree? { return; }
      ghost var e, now := Pratt.Expr(s.ahead, 0), View().value;
      CloseSteps(now, Paren(e.c));
      var m := MatchTok(TRPar, now);
      if m != Matched { r := Wrong; }
    }

    method Sign(op: Op, ghost s: State) returns (r: Found)
      requires View() == Go(s) && IsPrefix(op)
      modifies this`pos, this`errs, this`envs
      ensures var n := Pratt.Sign(op, s.ahead); View() == MoveTo(s, n.rest) && r == FoundAs(View(), n)
      decreases |s.ahead|, 3
    {
      SignSteps(s, op);
      r := Expr(PrefixPower(op), s);
      if !r.Tree? { return; }
      ghost var e, now := Pratt.Expr(s.ahead, PrefixPower(op)), View().value;
      CloseSteps(now, Un(op, e.c));
      var m := MatchTok(LPAR, now);
      r := if m == NoMatch then Tree(Unary(op, r.a)) else Wrong;
    }

    // A literal or a name, and its arguments if a parenthesis follows.
    method Operand(t: Tok, ghost s: State) returns (r: Found)
      requires View() == Go(s) && IsAtom(t)
      modifies this`pos, this`errs, this`envs
      ensures var n := Pratt.Operand(t, s.ahead); View() == MoveTo(s, n.rest) && r == FoundAs(View(), n)
      decreases |s.ahead|, 3
    {
      CloseSteps(s, Atom(t));
      var m := MatchTok(LPAR, s);
      if m == MatchError || (m == Matched && !t.TId?) { return Wrong; }
      if m == NoMatch { return Tree(Leaf(t)); }
      ArgsAfter(s);
      CallSteps(s, t.name);
      var f := FuncArgs([], Advance(s));
      if !f.Args? { return if f.WrongArgs? then Wrong else TooMany; }
      ghost var a, now := Pratt.Args(s.ahead[1..]), View().value;
      CloseSteps(now, Call(t.name, a.args, a.comma));
      var close := MatchTok(TRPar, now);
      StripCall(t.name, a.args, a.comma, f.es);
      r := if close == Matched then Tree(FCall(t.name, f.es)) else Wrong;
    }

    lemma StripCall(f: string, args: seq<Cst>, comma: bool, es: seq<Ast>)
      requires es == [] + StripAll(args)
      ensures Strip(Call(f, args, comma)) == FCall(f, es)
    {
    }

    // Arguments are added one by one.
    method FuncArgs(before: seq<Ast>, ghost s: State) returns (f: FoundArgs)
      requires View() == Go(s)
      modifies this`pos, this`errs, this`envs
      ensures var a := Pratt.Args(s.ahead); View() == MoveTo(s, a.rest) && f == ArgsAs(before, View(), a)
      decreases |s.ahead|, 4
    {
      TakeOne(s);
      var l := Peek(s);
      if l == LexError { return WrongArgs; }
      if l == EndOfFile || l.t.TRPar? || !IsExprTok(l.t) {
        assert before + [] == before;
        return Args(before);
      }
      ArgsSteps(s);
      var r := Expr(-1, s);
      if !r.Tree? { return if r.Wrong? then WrongArgs else TooManyArgs; }
      ghost var e := Pratt.Expr(s.ahead, -1);
      f := FuncMoreArgs(before + [r.a], View().value);
      AddedOne(before, e.c, View(), MoreArgs(e.rest));
    }

    // After an argument: a comma and more, or nothing.
    method FuncMoreArgs(before: seq<Ast>, ghost s: State) returns (f: FoundArgs)
      requires View() == Go(s)
      modifies this`pos, this`errs, this`envs
      ensures var a := MoreArgs(s.ahead); View() == MoveTo(s, a.rest) && f == ArgsAs(before, View(), a)
      decreases |s.ahead|, 5
    {
      hide MoreArgs, Pratt.Args, ArgsAs;
      TakeOne(s);
      MoreHere(before, s);
      var comma := MatchTok(TWord(KComma), s);
      if comma == MatchError { return WrongArgs; }
      if comma == NoMatch { return Args(before); }
      ArgsAfter(s);
      f := FuncArgs(before, Advance(s));
      AfterComma(before, s, View());
    }

    // No argument follows.
    lemma MoreHere(before: seq<Ast>, s: State)
      requires Ready(s)
      ensures
        var a := MoreArgs(s.ahead);
        && (AtError(s.ahead) ==> a.rest == Drop(s.ahead) && ArgsAs(before, Go(Peeked(s)), a) == WrongArgs)
        && (!AtError(s.ahead) && !At(s.ahead, TWord(KComma)) ==>
              a.rest == s.ahead && ArgsAs(before, Go(s), a) == Args(before))
    {
      assert before + [] == before;
    }

    // A comma adds nothing to the arguments after it.
    lemma AfterComma(before: seq<Ast>, s: State, v: Outcome<State>)
      requires At(s.ahead, TWord(KComma))
      ensures
        var a, m := Pratt.Args(s.ahead[1..]), MoreArgs(s.ahead);
        m.rest == a.rest && ArgsAs(before, v, m) == ArgsAs(before, v, a)
    {
    }

    lemma AddedOne(before: seq<Ast>, c: Cst, v: Outcome<State>, more: ArgsRes)
      ensures ArgsAs(before + [Strip(c)], v, more) ==
        ArgsAs(before, v, if more.ArgsErr? then more else ArgsOk([c] + more.args, more.comma, more.rest))
    {
      if more.ArgsOk? {
        assert ([c] + more.args)[1..] == more.args;
        assert (before + [Strip(c)]) + StripAll(more.args) == before + ([Strip(c)] + StripAll(more.args));
      }
    }

    // ----- recovery -----

    // Skip to one of some tokens, to the end, or over an error.
    method LexWhileNot(stops: set<Word>, ghost s: State) returns (stop: Stop)
      requires View() == Go(s)
      modifies this`pos
      ensures var (ts, found) := Skip(s.ahead, stops); View() == Go(s.(ahead := ts)) && stop == found
    {
      ghost var now := s;
      while true
        invariant View() == Go(now) && now == s.(ahead := now.ahead) && Skip(s.ahead, stops) == Skip(now.ahead, stops)
        decreases |now.ahead|
      {
        var l := Peek(now);
        if l == LexError { return OnError; }
        if l == EndOfFile { return OnEof; }
        if l.t.TWord? && l.t.word in stops { return OnWord(l.t.word); }
        Lex(now);
        now := Advance(now);
      }
    }

    method NextSyncNoSemi(stops: set<Word>, ghost s: State) returns (stop: Stop)
      requires View() == Go(s)
      modifies this`pos
      ensures var (s', found) := SyncNoSemi(s, stops); View() == Go(s') && stop == found
    {
      stop := LexWhileNot(stops + SECTIONS + {KSemi}, s);
    }

    // A semicolon is taken.
    method NextSync(stops: set<Word>, ghost s: State) returns (stop: Stop)
      requires View() == Go(s)
      modifies this`pos
      ensures var (s', found) := Sync(s, stops); View() == Go(s') && stop == found
    {
      stop := NextSyncNoSemi(stops, s);
      if stop == OnWord(KSemi) { Lex(View().value); }
    }

    method NextSection(ghost s: State) returns (failed: bool)
      requires View() == Go(s)
      modifies this`pos
      ensures var e := SkipSection(s); View() == Go(e.s) && failed == e.failed
    {
      var stop := LexWhileNot(SECTIONS, s);
      failed := stop.OnError?;
    }

    // A token that has to be there; if not, an error and recovery.
    method MatchErr(t: Tok, ghost s: State) returns (m: Match)
      requires View() == Go(s) && !IsError(t)
      modifies this`pos, this`errs
      ensures View() == Demand(s, At(s.ahead, t))
      ensures m == if View().Abort? then MatchError else if At(s.ahead, t) then Matched else NoMatch
    {
      m := MatchTok(t, s);
      if m == Matched { return; }
      var ok := Errorf(Peeked(s));
      if !ok { return MatchError; }
      var _ := NextSync({}, View().value);
      m := NoMatch;
    }

    method MatchId(ghost s: State) returns (m: Match, name: string)
      requires View() == Go(s)
      modifies this`pos
      ensures m == if AtError(s.ahead) then MatchError else if AtId(s.ahead) then Matched else NoMatch
      ensures m.Matched? ==> name == s.ahead[0].name
      ensures View() == Go(if m.Matched? then Advance(s) else Peeked(s))
    {
      name := "";
      var l := Peek(s);
      if l == LexError { return MatchError, name; }
      if l == EndOfFile || !l.t.TId? { return NoMatch, name; }
      Lex(s);
      m, name := Matched, l.t.name;
    }

    method MatchErrId(ghost s: State) returns (m: Match, name: string)
      requires View() == Go(s)
      modifies this`pos, this`errs
      ensures View() == Demand(s, AtId(s.ahead))
      ensures m == if View().Abort? then MatchError else if AtId(s.ahead) then Matched else NoMatch
      ensures m.Matched? ==> name == s.ahead[0].name
    {
      m, name := MatchId(s);
      if m == Matched { return; }
      var ok := Errorf(Peeked(s));
      if !ok { return MatchError, name; }
      var _ := NextSync({}, View().value);
      m := NoMatch;
    }

    // ----- sections -----

    // How a parsing method ended, in the terms of Descent.
    ghost function Result(r: Ending): Outcome<End>
      reads this
    {
      if r.Ended? && View().Go? then Go(End(View().value, r.failed)) else Abort
    }

    // Whether the name is new in the innermost environment.
    method NewSym(name: string, ghost s: State) returns (isNew: bool)
      requires View() == Go(s)
      modifies this`envs
      ensures isNew == (name !in s.envs[|s.envs| - 1])
      ensures View() == Go(if isNew then s.(envs := Declare(s.envs, name)) else s)
    {
      isNew := name !in envs[|envs| - 1];
      if isNew { envs := envs[|envs| - 1 := envs[|envs| - 1] + {name}]; }
    }

    // Whether the name is new in all of them: variables and constants do not
    // shadow.
    method NewDecl(name: string, ghost s: State) returns (isNew: bool)
      requires View() == Go(s)
      modifies this`envs
      ensures isNew == !Declared(s.envs, name)
      ensures View() == Go(if isNew then s.(envs := Declare(s.envs, name)) else s)
    {
      var known := GetSym(name);
      isNew := !known;
      if isNew { envs := envs[|envs| - 1 := envs[|envs| - 1] + {name}]; }
    }

    method LevelDecls(ghost s: State) returns (r: Ending)
      requires View() == Go(s)
      modifies this
      ensures Result(r) == Descent.LevelDecls(s) && r.GaveUp? == View().Abort?
      decreases |s.ahead|, MAX_ERRORS - s.errs, 0
    {
      var m, name := MatchId(s);
      if m == NoMatch { return Ended(false); }
      if m == MatchError {
        var ok := Errorf(Peeked(s));
        if !ok { return GaveUp; }
        var _ := NextSync({}, View().value);
        r := LevelDecls(View().value);
        return;
      }
      var isNew := NewSym(name, Advance(s));
      if !isNew {
        var ok := Errorf(Advance(s));
        if !ok { return GaveUp; }
        var stop := NextSync({}, View().value);
        if stop.OnError? { return Ended(true); }
        r := LevelDecls(View().value);
        return;
      }
      r := LevelRest(name, View().value);
    }

    // After the name of a new level: whether it is soft, and a semicolon.
    method LevelRest(name: string, ghost s: State) returns (r: Ending)
      requires View() == Go(s)
      modifies this
      ensures Result(r) == Descent.LevelRest(s, name) && r.GaveUp? == View().Abort?
      decreases |s.ahead|, MAX_ERRORS - s.errs, 1
    {
      var l := Peek(s);
      var soft := l == Next(TWord(KSoft));
      if soft { Lex(s); }
      prog := prog.(levels := prog.levels + [LevelTree(name, soft)]);
      var m := MatchErr(TWord(KSemi), View().value);
      if m == MatchError { return GaveUp; }
      r := LevelDecls(View().value);
    }

    // An expression, as Descent sees it.
    lemma ReadExprIs(s: State)
      requires Ready(s)
      ensures
        var e := Pratt.Expr(s.ahead, -1);
        var v := MoveTo(s, e.rest);
        ReadExpr(s) == if v.Abort? then Abort else Go(if e.Ok? then Good(v.value, Strip(e.c)) else Bad(v.value))
    {
    }

    // Constants and variables differ only in the symbol they leave.
    method Decls(kind: Kind, ghost s: State) returns (r: Ending)
      requires View() == Go(s)
      modifies this
      ensures Result(r) == Descent.Decls(s, kind) && r.GaveUp? == View().Abort?
      decreases |s.ahead|, MAX_ERRORS - s.errs, 1
    {
      var m, name := MatchId(s);
      if m != Matched {
        r := NoDecl(kind, m == MatchError, s, Peeked(s));
        return;
      }
      var t, typ := MatchErrId(Advance(s));
      if t == MatchError { return GaveUp; }
      if t == NoMatch {
        var _ := NewDecl(name, View().value);
        var _ := NextSync({}, View().value);
        r := Decls(kind, View().value);
        return;
      }
      r := DeclValue(kind, name, typ, View().value);
    }

    // The section ends here, or what is ahead is skipped up to a semicolon.
    method NoDecl(kind: Kind, wasError: bool, ghost s0: State, ghost s: State) returns (r: Ending)
      requires View() == Go(s) && Ready(s0) && s == Peeked(s0) && wasError == AtError(s0.ahead) && !AtId(s0.ahead)
      modifies this
      ensures Result(r) == Descent.Decls(s0, kind) && r.GaveUp? == View().Abort?
      decreases |s.ahead|, MAX_ERRORS - s.errs, 0
    {
      var l := Peek(s);
      if l == LexError { return Ended(true); }
      if l == EndOfFile || (l.t.TWord? && l.t.word in SECTIONS) { return Ended(false); }
      SyncMoves(s);
      var stop := NextSync({}, s);
      if wasError || stop.OnEof? { return Ended(true); }
      r := Decls(kind, View().value);
    }

    method DeclValue(kind: Kind, name: string, typ: string, ghost s: State) returns (r: Ending)
      requires View() == Go(s)
      modifies this
      ensures Result(r) == Descent.DeclValue(s, kind, name, typ) && r.GaveUp? == View().Abort?
      decreases |s.ahead|, MAX_ERRORS - s.errs, 2
    {
      if !IsTypeName(typ) {
        var ok := Errorf(s);
        if !ok { return GaveUp; }
      }
      ghost var s1 := View().value;
      var isNew := NewDecl(name, s1);
      if !isNew {
        var ok := Errorf(s1);
        if !ok { return GaveUp; }
      }
      var m := MatchErr(TAsig, View().value);
      if m == MatchError { return GaveUp; }
      if m == NoMatch {
        r := Decls(kind, View().value);
      } else {
        r := DeclExpr(kind, if isNew then name else "lit", typ, View().value);
      }
    }

    method DeclExpr(kind: Kind, name: string, typ: string, ghost s: State) returns (r: Ending)
      requires View() == Go(s)
      modifies this
      ensures Result(r) == Descent.DeclExpr(s, kind, name, typ) && r.GaveUp? == View().Abort?
      decreases |s.ahead|, MAX_ERRORS - s.errs, 2
    {
      ReadExprIs(s);
      var e := Expr(-1, s);
      if e == TooMany { return GaveUp; }
      if e == Wrong {
        var ok := Errorf(View().value);
        if !ok { return GaveUp; }
        var stop := NextSync({}, View().value);
        if stop != OnWord(KSemi) { return Ended(stop.OnError?); }
        r := Decls(kind, View().value);
        return;
      }
      prog := prog.(decls := prog.decls + [DeclTree(kind, name, typ, e.a)]);
      var m := MatchErr(TWord(KSemi), View().value);
      if m == MatchError { return GaveUp; }
      r := Decls(kind, View().value);
    }

    // ----- rules -----

    // An action, then the next one after a connector.
    method Ruler(con: Word, ghost s: State) returns (r: Ending)
      requires View() == Go(s)
      modifies this
      ensures Result(r) == Descent.Ruler(s, con) && r.GaveUp? == View().Abort?
      decreases |s.ahead|, 0
    {
      var l := Peek(s);
      if l == LexError { return Ended(true); }
      if l == EndOfFile || !IsExprTok(l.t) {
        var ok := Errorf(s);
        return if ok then Ended(true) else GaveUp;
      }
      ReadExprIs(s);
      var e := Expr(-1, s);
      if e == TooMany { return GaveUp; }
      if e == Wrong {
        var ok := Errorf(View().value);
        if !ok { return GaveUp; }
        var stop := NextSyncNoSemi({KThen, KNThen}, View().value);
        return Ended(stop.OnError?);
      }
      prog := Descent.AddAction(prog, Action(con, e.a));
      r := NextAction(View().value);
    }

    method NextAction(ghost s: State) returns (r: Ending)
      requires View() == Go(s)
      modifies this
      ensures Result(r) == Descent.NextAction(s) && r.GaveUp? == View().Abort?
      decreases |s.ahead|, 1
    {
      var l := Peek(s);
      if l == LexError { return Ended(true); }
      var stop := OnEof;
      if l.Next? && l.t.TWord? && l.t.word in CONNECTORS {
        stop := OnWord(l.t.word);
      } else {
        stop := NextSyncNoSemi(CONNECTORS, s);
        if !stop.OnWord? || stop.w !in CONNECTORS { return Ended(stop.OnError?); }
      }
      Lex(View().value);
      r := Ruler(stop.w, View().value);
    }

    method PushEnv(ghost s: State)
      requires View() == Go(s)
      modifies this`envs
      ensures View() == Go(Push(s))
    {
      envs := envs + [{}];
    }

    // The environment of a rule is left as it was before the rule.
    method PopEnv(ghost s: State, ghost outer: seq<set<string>>)
      requires View() == Go(s) && Inner(outer, s)
      modifies this`envs
      ensures View() == Go(Pop(s, outer))
    {
      envs := envs[..|envs| - 1];
    }

    // The name of the rule being read is a constant of its environment.
    method DeclareCurrRule(ghost s: State) returns (ok: bool)
      requires View() == Go(s)
      modifies this`envs, this`errs
      ensures View() == DeclareNew(s, CURR_RULE) && ok == View().Go?
    {
      var isNew := NewDecl(CURR_RULE, s);
      ok := true;
      if !isNew { ok := Errorf(s); }
    }

    method ActionDecls(ghost s: State) returns (r: Ending)
      requires View() == Go(s)
      modifies this
      ensures Result(r) == Descent.ActionDecls(s) && r.GaveUp? == View().Abort?
      decreases |s.ahead|, 1
    {
      PushEnv(s);
      var ok := DeclareCurrRule(Push(s));
      if !ok { return GaveUp; }
      ghost var s1 := View().value;
      StillInner(s.envs, Push(s), s1);
      var l := Peek(s1);
      if l == LexError {
        PopEnv(Peeked(s1), s.envs);
        var stop := NextSync({}, View().value);
        return Ended(stop.OnError?);
      }
      if l == EndOfFile || !IsExprTok(l.t) {
        PopEnv(s1, s.envs);
        return Ended(false);
      }
      r := RuleExpr(s1, s.envs);
    }

    // From the expression of a rule on.
    method RuleExpr(ghost s: State, ghost outer: seq<set<string>>) returns (r: Ending)
      requires View() == Go(s) && Inner(outer, s) && s.ahead != [] && IsExprTok(s.ahead[0])
      modifies this
      ensures Result(r) == Descent.RuleExpr(s, outer) && r.GaveUp? == View().Abort?
      decreases |s.ahead|, 0
    {
      ReadExprIs(s);
      var e := Expr(-1, s);
      if e == TooMany { return GaveUp; }
      ghost var s1 := View().value;
      StillInner(outer, s, s1);
      if e == Wrong {
        PopEnv(s1, outer);
        var ok := Errorf(View().value);
        if !ok { return GaveUp; }
        var _ := NextSync({KQuest}, View().value);
        r := ActionDecls(View().value);
        return;
      }
      prog := AddRule(prog, e.a);
      r := RuleRest(View().value, outer);
    }

    // From the question mark on.
    method RuleRest(ghost s: State, ghost outer: seq<set<string>>) returns (r: Ending)
      requires View() == Go(s) && Inner(outer, s)
      modifies this
      ensures Result(r) == Descent.RuleRest(s, outer) && r.GaveUp? == View().Abort?
      decreases |s.ahead|, 2
    {
      var m := MatchErr(TWord(KQuest), s);
      if m == MatchError { return GaveUp; }
      ghost var s1 := View().value;
      if m == NoMatch {
        PopEnv(s1, outer);
        r := ActionDecls(View().value);
        return;
      }
      r := Ruler(KComma, s1);
      if r == GaveUp { return; }
      StillInner(outer, s1, View().value);
      if r.failed {
        var ok := Errorf(View().value);
        if !ok { return GaveUp; }
        PopEnv(View().value, outer);
        var stop := NextSync({KQuest}, View().value);
        return Ended(stop.OnError?);
      }
      m := MatchErr(TWord(KSemi), View().value);
      if m == MatchError { return GaveUp; }
      PopEnv(View().value, outer);
      r := ActionDecls(View().value);
    }

    method RuleSect(id: string, ghost s: State) returns (r: Ending)
      requires View() == Go(s)
      modifies this
      ensures Result(r) == Descent.RuleSect(s, id) && r.GaveUp? == View().Abort?
    {
      var isNew := NewSym(id, s);
      if !isNew {
        var ok := Errorf(s);
        if !ok { return GaveUp; }
        ok := Errorf(View().value);
        if !ok { return GaveUp; }
        var failed := NextSection(View().value);
        return Ended(failed);
      }
      prog := prog.(sects := prog.sects + [SectTree(id, [])]);
      r := ActionDecls(View().value);
    }

    // ----- programs -----

    method Prog(ghost s: State) returns (r: Ending)
      requires View() == Go(s)
      modifies this
      ensures Result(r) == Descent.Prog(s) && r.GaveUp? == View().Abort?
      decreases |s.ahead|, 0
    {
      var l := Peek(s);
      if l == LexError { return Ended(true); }
      if l == EndOfFile { return Ended(false); }
      if !l.t.TWord? || l.t.word !in SECTIONS {
        var ok := Errorf(s);
        if !ok { return GaveUp; }
        var failed := NextSection(View().value);
        return Ended(failed);
      }
      Lex(s);
      var sect, id := l.t.word, "";
      if sect == KRules {
        var m, name := MatchId(Advance(s));
        if m != Matched {
          var _ := NextSection(View().value);
          r := Prog(View().value);
          return;
        }
        id := name;
      }
      r := SectionAndRest(sect, id, View().value);
    }

    method SectionAndRest(sect: Word, id: string, ghost s: State) returns (r: Ending)
      requires View() == Go(s) && sect in SECTIONS
      modifies this
      ensures Result(r) == Descent.SectionAndRest(s, sect, id) && r.GaveUp? == View().Abort?
      decreases |s.ahead|, 1
    {
      var m := MatchErr(TWord(KColon), s);
      if m == MatchError { return GaveUp; }
      if m == NoMatch { return Ended(false); }
      r := Section(sect, id, View().value);
      if r == GaveUp { return; }
      if r.failed {
        var ok := Errorf(View().value);
        if !ok { return GaveUp; }
        var failed := NextSection(View().value);
        return Ended(failed);
      }
      r := Prog(View().value);
    }

    method Section(sect: Word, id: string, ghost s: State) returns (r: Ending)
      requires View() == Go(s) && sect in SECTIONS
      modifies this
      ensures Result(r) == Descent.Section(s, sect, id) && r.GaveUp? == View().Abort?
    {
      match sect
      case KLevels =>
        r := LevelDecls(s);
        if r.Ended? && prog.levels == [] {
          var ok := Errorf(View().value);
          if !ok { r := GaveUp; }
        }
      case KConsts => r := Decls(AConst, s);
      case KVars => r := Decls(AVar, s);
      case _ => r := RuleSect(id, s);
    }
  }
}
