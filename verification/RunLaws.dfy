// What a run does (tree/interp.go, tree/builtins.go, extern/actions.go), said
// without the functions that compute it: which actions of a chain run, which
// rules and which section, and what each action leaves behind.
module RunLaws {
  import opened Wrappers
  import opened Types
  import opened Int64
  import opened Syntax
  import opened Semantics
  import opened Levels

  // ----- chains -----

  // => goes on after a success, !> after a failure, a comma always.
  predicate GoesOn(con: Con, ok: bool) {
    con == Comma || (con == Then && ok) || (con == NThen && !ok)
  }

  // Between two actions: the state, the counters, and whether the action
  // before succeeded.
  datatype Moment = Moment(ok: bool, st: St, sig: Sig)

  // The moments of a run of the chain, as far as it gets.
  predicate Moments(w: World, acts: seq<Act>, ms: seq<Moment>) {
    0 < |ms| <= |acts| + 1 &&
    forall i | 0 <= i < |ms| - 1 ::
      && GoesOn(acts[i].con, ms[i].ok)
      && RunAct(w, acts[i].what, ms[i].st, ms[i].sig) == ActOk(ms[i + 1].ok, ms[i + 1].st, ms[i + 1].sig)
  }

  // Where a run of the chain ends: at the end of the chain or before a
  // connector that does not go on, or in an action that ends the program.
  predicate EndsIn(w: World, acts: seq<Act>, ms: seq<Moment>, r: RunRes)
    requires 0 < |ms| <= |acts| + 1
  {
    var n, m := |ms| - 1, ms[|ms| - 1];
    if n == |acts| || !GoesOn(acts[n].con, m.ok) then r == Done(m.st, m.sig)
    else
      match RunAct(w, acts[n].what, m.st, m.sig)
      case ActOk(_, _, _) => false
      case ActStop(t) => r == Stop(t)
      case ActFault(f) => r == Fail(f)
  }

  // Every run of a chain is such a sequence of moments.
  lemma {:induction false} ChainRun(w: World, acts: seq<Act>, ok: bool, st: St, sig: Sig) returns (ms: seq<Moment>)
    ensures Moments(w, acts, ms) && ms[0] == Moment(ok, st, sig)
    ensures EndsIn(w, acts, ms, RunChain(w, acts, ok, st, sig))
    decreases acts
  {
    ms := [Moment(ok, st, sig)];
    if acts != [] && GoesOn(acts[0].con, ok) {
      var r := RunAct(w, acts[0].what, st, sig);
      if r.ActOk? {
        var rest := ChainRun(w, acts[1..], r.success, r.st, r.sig);
        ms := ms + rest;
        assert forall i | 0 < i < |ms| :: ms[i] == rest[i - 1];
        assert forall i | 0 < i < |acts| :: acts[i] == acts[1..][i - 1];
      }
    }
  }

  // ----- rules -----

  // Between two rules.
  datatype Between = Between(st: St, sig: Sig)

  // A rule whose trigger is true runs its chain, and any other nothing; the
  // signals its trigger has taken are gone either way.
  predicate RuleGoes(w: World, r: Rule, m: Between, next: Between) {
    var v := Eval(w, r.expr, m.st, m.sig);
    v.Ok? &&
    if v.v == BoolV(true) then RunChain(w, r.acts, true, m.st, v.sig) == Done(next.st, next.sig)
    else next == Between(m.st, v.sig)
  }

  predicate RulesGo(w: World, rs: seq<Rule>, ms: seq<Between>) {
    0 < |ms| <= |rs| + 1 && forall i | 0 <= i < |ms| - 1 :: RuleGoes(w, rs[i], ms[i], ms[i + 1])
  }

  // All rules are run in turn, up to one that ends the program.
  predicate RulesEnd(w: World, rs: seq<Rule>, ms: seq<Between>, r: RunRes)
    requires 0 < |ms| <= |rs| + 1
  {
    var n, m := |ms| - 1, ms[|ms| - 1];
    if n == |rs| then r == Done(m.st, m.sig)
    else
      match Eval(w, rs[n].expr, m.st, m.sig)
      case Err(f) => r == Fail(f)
      case Ok(v, sig) => v == BoolV(true) && !r.Done? && r == RunChain(w, rs[n].acts, true, m.st, sig)
  }

  lemma {:induction false} RulesRun(w: World, rs: seq<Rule>, st: St, sig: Sig) returns (ms: seq<Between>)
    ensures RulesGo(w, rs, ms) && ms[0] == Between(st, sig)
    ensures RulesEnd(w, rs, ms, RunRules(w, rs, st, sig))
    decreases rs
  {
    ms := [Between(st, sig)];
    if rs != [] {
      var r := RunRule(w, rs[0], st, sig);
      if r.Done? {
        var rest := RulesRun(w, rs[1..], r.st, r.sig);
        ms := ms + rest;
        assert forall i | 0 < i < |ms| :: ms[i] == rest[i - 1];
        assert forall i | 0 < i < |rs| :: rs[i] == rs[1..][i - 1];
      }
    }
  }

  // ----- inputs -----

  // The first section with that name.
  predicate IsFirst(ss: seq<Section>, kind: string, i: nat) {
    i < |ss| && ss[i].id == kind && forall j | 0 <= j < i :: ss[j].id != kind
  }

  lemma {:induction false} FirstSectionRuns(w: World, ss: seq<Section>, kind: string, i: nat, st: St, sig: Sig)
    requires IsFirst(ss, kind, i)
    ensures RunSections(w, ss, kind, st, sig) == RunRules(w, ss[i].rules, st, sig)
    decreases i
  {
    if i > 0 {
      assert forall j | 0 < j < |ss| :: ss[1..][j - 1] == ss[j];
      FirstSectionRuns(w, ss[1..], kind, i - 1, st, sig);
    }
  }

  lemma {:induction false} NoSectionRuns(w: World, ss: seq<Section>, kind: string, st: St, sig: Sig)
    requires forall j | 0 <= j < |ss| :: ss[j].id != kind
    ensures RunSections(w, ss, kind, st, sig) == Done(st, sig)
    decreases ss
  {
    if ss != [] {
      assert forall j | 0 < j < |ss| :: ss[1..][j - 1] == ss[j];
      NoSectionRuns(w, ss[1..], kind, st, sig);
    }
  }

  // A message or a poll sets the clock, and runs the rules of the first
  // section of its name and no others.
  lemma InputRuns(p: Prog, w: World, kind: string, time: int64, uptime: int64, st: St, sig: Sig)
    ensures
      var r := RunStream(p, [Run(w, kind, time, uptime)], st, sig);
      var st0 := St(st.vars["Time" := IntV(time)]["Uptime" := IntV(uptime)], st.lvl, st.init, st.trace);
      && (forall i: nat | IsFirst(p.sections, kind, i) :: r == RunRules(w, p.sections[i].rules, st0, sig))
      && ((forall j | 0 <= j < |p.sections| :: p.sections[j].id != kind) ==> r == Done(st0, sig))
  {
    var st0 := St(st.vars["Time" := IntV(time)]["Uptime" := IntV(uptime)], st.lvl, st.init, st.trace);
    assert [Run(w, kind, time, uptime)][1..] == [];
    assert SetPredef(st, time, uptime) == st0;
    forall i: nat | IsFirst(p.sections, kind, i)
      ensures RunSections(w, p.sections, kind, st0, sig) == RunRules(w, p.sections[i].rules, st0, sig)
    {
      FirstSectionRuns(w, p.sections, kind, i, st0, sig);
    }
    if forall j | 0 <= j < |p.sections| :: p.sections[j].id != kind {
      NoSectionRuns(w, p.sections, kind, st0, sig);
    }
  }

  lemma SignalCounts(p: Prog, st: St, sig: Sig)
    ensures RunStream(p, [Usr1], st, sig) == Done(st, Sig(sig.usr1 + 1, sig.usr2))
    ensures RunStream(p, [Usr2], st, sig) == Done(st, Sig(sig.usr1, sig.usr2 + 1))
  {
    assert [Usr1][1..] == [] && [Usr2][1..] == [];
  }

  lemma {:induction false} StreamConcat(p: Prog, a: seq<Input>, b: seq<Input>, st: St, sig: Sig)
    ensures
      var r := RunStream(p, a, st, sig);
      RunStream(p, a + b, st, sig) == if r.Done? then RunStream(p, b, r.st, r.sig) else r
    decreases a
  {
    if a == [] {
      assert a + b == b;
    } else {
      assert (a + b)[0] == a[0] && (a + b)[1..] == a[1..] + b;
      var one := RunStream(p, [a[0]], st, sig);
      FirstInput(p, a[0], a[1..], st, sig);
      FirstInput(p, a[0], a[1..] + b, st, sig);
      assert [a[0]] + a[1..] == a && [a[0]] + (a[1..] + b) == a + b;
      if one.Done? { StreamConcat(p, a[1..], b, one.st, one.sig); }
    }
  }

  lemma FirstInput(p: Prog, x: Input, rest: seq<Input>, st: St, sig: Sig)
    ensures
      var r := RunStream(p, [x], st, sig);
      RunStream(p, [x] + rest, st, sig) == if r.Done? then RunStream(p, rest, r.st, r.sig) else r
  {
    assert ([x] + rest)[1..] == rest && [x][1..] == [];
  }

  // ----- actions -----

  // A state with one more event on its trace.
  function Noted(st: St, ev: Event): St {
    St(st.vars, st.lvl, st.init, st.trace + [ev])
  }

  function Texts(ss: seq<string>): (vs: seq<Value>)
    ensures |vs| == |ss| && forall i | 0 <= i < |ss| :: vs[i] == StrV(ss[i])
  {
    seq(|ss|, i requires 0 <= i < |ss| => StrV(ss[i]))
  }

  // True and False show their arguments, and one succeeds and the other fails.
  lemma ShowRuns(w: World, args: seq<Expr>, dt: Type, st: St, sig: Sig, vs: seq<Value>, sig1: Sig)
    requires EvalAll(w, args, st, sig) == Oks(vs, sig1)
    ensures RunAct(w, Call(FTrue, args, dt), st, sig) == ActOk(true, Noted(st, ShowEv(true, vs)), sig1)
    ensures RunAct(w, Call(FFalse, args, dt), st, sig) == ActOk(false, Noted(st, ShowEv(false, vs)), sig1)
  {
  }

  // alert always succeeds, and crash ends the program with its text.
  lemma TextRuns(w: World, args: seq<Expr>, dt: Type, st: St, sig: Sig, text: string, sig1: Sig)
    requires EvalAll(w, args, st, sig) == Oks([StrV(text)], sig1)
    ensures RunAct(w, Call(FAlert, args, dt), st, sig) == ActOk(true, Noted(st, AlertEv(text)), sig1)
    ensures RunAct(w, Call(FCrash, args, dt), st, sig) == ActStop(st.trace + [CrashEv(text)])
  {
  }

  // exec succeeds if the command does.
  lemma ExecRuns(
      w: World, args: seq<Expr>, dt: Type, st: St, sig: Sig, path: string, texts: seq<string>, sig1: Sig)
    requires EvalAll(w, args, st, sig) == Oks([StrV(path)] + Texts(texts), sig1)
    ensures
      RunAct(w, Call(FExec, args, dt), st, sig) ==
      ActOk(w.exec(st.trace, path, texts), Noted(st, ExecEv(path, texts)), sig1)
  {
    assert ([StrV(path)] + Texts(texts))[1..] == Texts(texts);
    TextsBack(texts);
  }

  lemma {:induction false} TextsBack(ss: seq<string>)
    ensures StrFields(Texts(ss)) == ss
  {
    if ss != [] {
      assert Texts(ss)[1..] == Texts(ss[1..]);
      TextsBack(ss[1..]);
    }
  }

  // set always succeeds, and gives its variable the value of its argument; no
  // other variable changes, nor does the level or the trace.
  lemma SetRuns(w: World, x: string, xt: Type, e: Expr, dt: Type, st: St, sig: Sig, v: Value, sig1: Sig)
    requires x != "CurrLevel" && Eval(w, e, st, sig) == Ok(v, sig1)
    ensures
      RunAct(w, Call(FSet, [Var(x, xt), e], dt), st, sig) ==
      ActOk(true, St(st.vars[x := v], st.lvl, st.init, st.trace), sig1)
  {
  }

  // trigger goes to a level if the move is allowed and the scripts succeed, and
  // succeeds without doing anything on the level it is already on.
  lemma TriggerRuns(w: World, to: int64, dt: Type, st: St, sig: Sig)
    requires OnPath(w.levels, st) && Distinct(w.levels) && 0 <= to < |w.levels|
    ensures
      var from, allowed := st.lvl, to >= st.lvl || (w.levels[st.lvl].soft && to == st.lvl - 1);
      var done := w.scripts(st.trace, w.levels[from].name, w.levels[to].name);
      var ev := TriggerEv(w.levels[from].name, w.levels[to].name, done);
      RunAct(w, Call(FTrigger, [Level(w.levels[to].name, to)], dt), st, sig) ==
      if to == from && st.init then ActOk(true, st, sig)
      else if allowed then ActOk(done, St(st.vars, if done then to else from, true, st.trace + [ev]), sig)
      else ActOk(false, St(st.vars, from, true, st.trace), sig)
  {
    TriggerExact(w, to, st);
  }

  // A variable is read as it was set; CurrLevel is the level.
  lemma VarRead(w: World, x: string, dt: Type, st: St, sig: Sig)
    ensures x in st.vars && x != "CurrLevel" ==> Eval(w, Var(x, dt), st, sig) == Ok(st.vars[x], sig)
    ensures Eval(w, Var("CurrLevel", dt), st, sig) == Ok(IntV(st.lvl), sig)
  {
  }

  // After False the action behind => is not run, and the one behind !> is;
  // after True it is the other way round.
  lemma OutcomeDecides(w: World, args: seq<Expr>, dt: Type, next: Expr, st: St, sig: Sig, vs: seq<Value>, sig1: Sig)
    requires EvalAll(w, args, st, sig) == Oks(vs, sig1)
    ensures
      var yes, no := Act(Comma, Call(FTrue, args, dt)), Act(Comma, Call(FFalse, args, dt));
      var styes, stno := Noted(st, ShowEv(true, vs)), Noted(st, ShowEv(false, vs));
      && RunChain(w, [no, Act(Then, next)], true, st, sig) == Done(stno, sig1)
      && RunChain(w, [yes, Act(NThen, next)], true, st, sig) == Done(styes, sig1)
      && RunChain(w, [yes, Act(Then, next)], true, st, sig) == RunChain(w, [Act(Comma, next)], true, styes, sig1)
      && RunChain(w, [no, Act(NThen, next)], true, st, sig) == RunChain(w, [Act(Comma, next)], true, stno, sig1)
  {
    ShowRuns(w, args, dt, st, sig, vs, sig1);
    TwoActions(w, Call(FTrue, args, dt), Then, next, st, sig);
    TwoActions(w, Call(FTrue, args, dt), NThen, next, st, sig);
    TwoActions(w, Call(FFalse, args, dt), Then, next, st, sig);
    TwoActions(w, Call(FFalse, args, dt), NThen, next, st, sig);
  }

  lemma TwoActions(w: World, e: Expr, con: Con, next: Expr, st: St, sig: Sig)
    ensures
      var r := RunAct(w, e, st, sig);
      r.ActOk? ==>
        RunChain(w, [Act(Comma, e), Act(con, next)], true, st, sig) ==
        if GoesOn(con, r.success) then RunChain(w, [Act(Comma, next)], true, r.st, r.sig) else Done(r.st, r.sig)
  {
    hide RunAct;
    assert [Act(Comma, e), Act(con, next)][1..] == [Act(con, next)];
    assert [Act(con, next)][1..] == [] == [Act(Comma, next)][1..];
  }

  // ----- arguments and queries -----

  // Arguments are evaluated from left to right, each with the signals the
  // ones before have left.
  lemma {:induction false} ArgsInOrder(w: World, a: seq<Expr>, b: seq<Expr>, st: St, sig: Sig)
    ensures
      var r := EvalAll(w, a, st, sig);
      if r.Errs? then EvalAll(w, a + b, st, sig) == r
      else
        var t := EvalAll(w, b, st, r.sig);
        EvalAll(w, a + b, st, sig) == if t.Errs? then t else Oks(r.vs + t.vs, t.sig)
    decreases a
  {
    if a == [] {
      assert a + b == b;
      var t := EvalAll(w, b, st, sig);
      assert t.Oks? ==> [] + t.vs == t.vs;
    } else {
      assert (a + b)[0] == a[0] && (a + b)[1..] == a[1..] + b;
      var v := Eval(w, a[0], st, sig);
      if v.Ok? {
        ArgsInOrder(w, a[1..], b, st, v.sig);
        var r, t := EvalAll(w, a[1..], st, v.sig), EvalAll(w, a[1..] + b, st, v.sig);
        if r.Oks? && t.Oks? {
          var u := EvalAll(w, b, st, r.sig);
          assert [v.v] + (r.vs + u.vs) == ([v.v] + r.vs) + u.vs;
        }
      }
    }
  }

  // What a query on the message answers; subscribersinclude asks the other
  // way round.
  predicate Answers(f: Fn, texts: seq<string>, m: MsgCtx, yes: bool) {
    match f
    case FTopicIn => yes == (m.topic in texts)
    case FMsgTypeIn => yes == (texts == [] || m.rostype in texts)
    case FPublishersInclude => yes == AllIn(texts, m.publishers)
    case FSubscribersInclude => yes == AllIn(m.subscribers, texts)
    case FNodesInclude => yes == AllIn(texts, m.nodes)
    case FTopicsInclude => yes == AllIn(texts, m.topics)
    case _ => true
  }

  // An empty text on its own stands for none.
  predicate AllIn(few: seq<string>, many: seq<string>) {
    few == [""] || forall s | s in few :: s in many
  }

  lemma QueryAnswers(
      w: World, f: Fn, args: seq<Expr>, dt: Type, st: St, sig: Sig, texts: seq<string>, sig1: Sig, m: MsgCtx)
    requires w.msg == Some(m) && EvalAll(w, args, st, sig) == Oks(Texts(texts), sig1)
    requires f in {FTopicIn, FMsgTypeIn, FPublishersInclude, FSubscribersInclude, FNodesInclude, FTopicsInclude}
    ensures
      var r := Eval(w, Call(f, args, dt), st, sig);
      r.Ok? && r.sig == sig1 && r.v.BoolV? && Answers(f, texts, m, r.v.b)
  {
    TextsBack(texts);
  }

  // Any other query is asked of the robot, with its arguments.
  lemma QueryAsked(w: World, f: Fn, args: seq<Expr>, dt: Type, st: St, sig: Sig, vs: seq<Value>, sig1: Sig)
    requires EvalAll(w, args, st, sig) == Oks(vs, sig1) && !IsAction(f)
    requires f !in {FTopicIn, FMsgTypeIn, FPublishersInclude, FSubscribersInclude, FNodesInclude, FTopicsInclude,
                    FServicesInclude, FSignal, FLevelName, FString}
    ensures
      var q := w.query(f, vs, st.trace);
      Eval(w, Call(f, args, dt), st, sig) == if q.None? then Err(NoQuery) else Ok(BoolV(q.value), sig1)
  {
  }

  // ----- numbers as text -----

  // The number that decimal digits stand for.
  function NumberOf(s: string): int {
    if s == "" then 0 else 10 * NumberOf(s[..|s| - 1]) + (s[|s| - 1] as int - '0' as int)
  }

  predicate IsNumeral(s: string) {
    s != "" && (forall i | 0 <= i < |s| :: '0' <= s[i] <= '9') && (s[0] == '0' ==> |s| == 1)
  }

  lemma {:induction false} DigitsRead(n: nat)
    ensures IsNumeral(Digits(n)) && NumberOf(Digits(n)) == n && (Digits(n)[0] == '0' <==> n == 0)
    decreases n
  {
    var d := "0123456789"[n % 10];
    assert d as int == '0' as int + n % 10;
    if n < 10 {
      assert [d][..0] == "";
    } else {
      DigitsRead(n / 10);
      assert (Digits(n / 10) + [d])[..|Digits(n / 10)|] == Digits(n / 10);
    }
  }

  // An integer is written as a sign, if it is negative, and digits without a
  // leading zero that stand for it; a truth value by its name.
  predicate Written(v: Value, s: string) {
    match v
    case IntV(i) => WrittenInt(i, s)
    case BoolV(b) => s == if b then "true" else "false"
    case StrV(t) => s == t
    case UndefV => true
  }

  predicate WrittenInt(i: int, s: string) {
    if i < 0 then s != "" && s[0] == '-' && IsNumeral(s[1..]) && NumberOf(s[1..]) == -i
    else IsNumeral(s) && NumberOf(s) == i
  }

  lemma RenderWrites(v: Value)
    ensures Written(v, Render(v))
  {
    hide Digits, IsNumeral, NumberOf;
    if v.IntV? { IntWritten(v.i, Render(v)); }
  }

  lemma IntWritten(i: int, s: string)
    requires s == if i < 0 then "-" + Digits(-i) else Digits(i)
    ensures WrittenInt(i, s)
  {
    hide Digits, IsNumeral, NumberOf;
    DigitsRead(if i < 0 then -i else i);
    assert i < 0 ==> s[1..] == Digits(-i);
  }

  lemma StringWrites(w: World, e: Expr, dt: Type, st: St, sig: Sig, v: Value, sig1: Sig)
    requires Eval(w, e, st, sig) == Ok(v, sig1)
    ensures
      var r := Eval(w, Call(FString, [e], dt), st, sig);
      r.Ok? && r.sig == sig1 && r.v.StrV? && Written(v, r.v.s)
  {
    hide Render, Written;
    OneArg(w, e, st, sig, v, sig1);
    RenderWrites(v);
  }

  lemma OneArg(w: World, e: Expr, st: St, sig: Sig, v: Value, sig1: Sig)
    requires Eval(w, e, st, sig) == Ok(v, sig1)
    ensures EvalAll(w, [e], st, sig) == Oks([v], sig1)
  {
    assert [e][1..] == [];
    assert EvalAll(w, [e], st, sig) == Oks([v] + [], sig1);
  }

  lemma LevelNamed(w: World, e: Expr, dt: Type, st: St, sig: Sig, i: int64, sig1: Sig)
    requires Eval(w, e, st, sig) == Ok(IntV(i), sig1) && 0 <= i < |w.levels|
    ensures Eval(w, Call(FLevelName, [e], dt), st, sig) == Ok(StrV(w.levels[i].name), sig1)
  {
    OneArg(w, e, st, sig, IntV(i), sig1);
  }

  // signal answers whether such a signal is pending, and takes it.
  lemma SignalAnswers(w: World, e: Expr, dt: Type, st: St, sig: Sig, name: string, s: Sig)
    requires Eval(w, e, st, sig) == Ok(StrV(name), s)
    ensures
      Eval(w, Call(FSignal, [e], dt), st, sig) ==
      if name == "SIGUSR1" && s.usr1 > 0 then Ok(BoolV(true), Sig(s.usr1 - 1, s.usr2))
      else if name == "SIGUSR2" && s.usr2 > 0 then Ok(BoolV(true), Sig(s.usr1, s.usr2 - 1))
      else Ok(BoolV(false), s)
  {
    OneArg(w, e, st, sig, StrV(name), s);
  }
}
