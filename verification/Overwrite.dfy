// Replacing a set that is overwritten further on in its chain by a constant
// (tree/const.go): the runs with and without it meet again at the later set.
module Overwrite {
  import opened Syntax
  import opened Semantics
  import opened Chain

  // The same state but for the value of one variable.
  predicate Twins(st1: St, st2: St, v: string) {
    && st1.(vars := map[]) == st2.(vars := map[])
    && v in st1.vars && st1.vars.Keys == st2.vars.Keys + {v}
    && forall x | x in st2.vars && x != v :: st1.vars[x] == st2.vars[x]
  }

  lemma {:induction false} EvalTwins(w: World, e: Expr, st1: St, st2: St, v: string, sig: Sig)
    requires Twins(st1, st2, v) && v !in Reads(e)
    ensures Eval(w, e, st1, sig) == Eval(w, e, st2, sig)
    decreases e
  {
    match e
    case Call(f, args, _) => EvalAllTwins(w, args, st1, st2, v, sig);
    case Bin(op, l, r, _) =>
      EvalTwins(w, l, st1, st2, v, sig);
      var a := Eval(w, l, st1, sig);
      if a.Ok? { EvalTwins(w, r, st1, st2, v, a.sig); }
    case Un(op, r, _) => EvalTwins(w, r, st1, st2, v, sig);
    case _ =>
  }

  lemma {:induction false} EvalAllTwins(w: World, es: seq<Expr>, st1: St, st2: St, v: string, sig: Sig)
    requires Twins(st1, st2, v) && v !in ReadsAll(es)
    ensures EvalAll(w, es, st1, sig) == EvalAll(w, es, st2, sig)
    decreases es
  {
    if es != [] {
      EvalTwins(w, es[0], st1, st2, v, sig);
      var a := Eval(w, es[0], st1, sig);
      if a.Ok? { EvalAllTwins(w, es[1..], st1, st2, v, a.sig); }
    }
  }

  // ----- expressions without effect -----

  lemma {:induction false} QuietNoEffect(w: World, e: Expr, st: St, sig: Sig)
    requires Quiet(e)
    ensures var r := Eval(w, e, st, sig); r.Ok? ==> r.sig == sig
    decreases e
  {
    match e
    case Call(f, args, _) =>
      QuietAllNoEffect(w, args, st, sig);
      if f == FSignal { NamedNoEffect(w, args, st, sig); }
    case Bin(_, l, r, _) =>
      QuietNoEffect(w, l, st, sig);
      QuietNoEffect(w, r, st, sig);
    case Un(_, r, _) => QuietNoEffect(w, r, st, sig);
    case _ =>
  }

  lemma NamedNoEffect(w: World, args: seq<Expr>, st: St, sig: Sig)
    requires NamesNoSignal(args)
    ensures
      var rs := EvalAll(w, args, st, sig);
      rs.Oks? ==> SignalStep(StrField(rs.vs[0]), rs.sig) == (false, rs.sig)
  {
    assert Eval(w, args[0], st, sig) == Ok(args[0].v, sig);
  }

  lemma {:induction false} QuietAllNoEffect(w: World, es: seq<Expr>, st: St, sig: Sig)
    requires QuietAll(es)
    ensures var r := EvalAll(w, es, st, sig); r.Oks? ==> r.sig == sig
    decreases es
  {
    if es != [] {
      QuietNoEffect(w, es[0], st, sig);
      QuietAllNoEffect(w, es[1..], st, sig);
    }
  }

  // ----- runs of a chain from twin states -----

  // Runs of one action from twin states, when it does not read the variable.
  predicate TwinRes(r1: ActRes, r2: ActRes, v: string) {
    match r1
    case ActOk(ok, st, sig) => r2.ActOk? && r2.success == ok && r2.sig == sig && Twins(st, r2.st, v)
    case _ => r2 == r1
  }

  lemma ActTwins(w: World, e: Expr, st1: St, st2: St, v: string, sig: Sig)
    requires Twins(st1, st2, v) && v !in ActReads(e) && SetShaped(e)
    ensures TwinRes(RunAct(w, e, st1, sig), RunAct(w, e, st2, sig), v)
  {
    if IsSet(e) {
      EvalTwins(w, e.args[1], st1, st2, v, sig);
    } else if e.Call? && IsAction(e.fn) {
      EvalAllTwins(w, e.args, st1, st2, v, sig);
      if e.fn != FTrigger {
        var rs := EvalAll(w, e.args, st1, sig);
        if rs.Oks? { DoActionTwins(w, e.fn, rs.vs, st1, st2, v, rs.sig); }
      }
    } else {
      EvalTwins(w, e, st1, st2, v, sig);
    }
  }

  lemma DoActionTwins(w: World, f: Fn, vs: seq<Value>, st1: St, st2: St, v: string, sig: Sig)
    requires Twins(st1, st2, v)
    ensures TwinRes(DoAction(w, f, vs, st1, sig), DoAction(w, f, vs, st2, sig), v)
  {
  }

  // Setting the variable makes twins one.
  lemma TwinsMeet(w: World, e: Expr, st1: St, st2: St, v: string, sig: Sig)
    requires Twins(st1, st2, v) && v !in ActReads(e)
    requires IsSet(e) && SetShaped(e) && Target(e) == v
    ensures RunAct(w, e, st1, sig) == RunAct(w, e, st2, sig)
  {
    EvalTwins(w, e.args[1], st1, st2, v, sig);
    var r := Eval(w, e.args[1], st1, sig);
    if r.Ok? { assert st1.vars[v := r.v] == st2.vars[v := r.v]; }
  }

  // Every connector of the chain is taken, given that the action before it
  // succeeded when sure.
  predicate Through(acts: seq<Act>, sure: bool) {
    acts == [] ||
    ((acts[0].con == Comma || (acts[0].con == Then && sure)) && Through(acts[1..], Sure(acts[0].what)))
  }

  // From twin states the two runs meet again at the set of the variable.
  lemma {:induction false} MeetAgain(
      w: World, middle: seq<Act>, last: Act, after: seq<Act>, sure: bool, success: bool,
      st1: St, st2: St, v: string, sig: Sig)
    requires Twins(st1, st2, v) && (sure ==> success) && Through(middle + [last], sure)
    requires forall a | a in middle + [last] :: v !in ActReads(a.what) && SetShaped(a.what)
    requires IsSet(last.what) && Target(last.what) == v
    ensures RunChain(w, middle + [last] + after, success, st1, sig)
         == RunChain(w, middle + [last] + after, success, st2, sig)
    decreases middle
  {
    var x := middle + [last] + after;
    var a := (middle + [last])[0];
    assert x[0] == a && a in middle + [last];
    if middle == [] {
      TwinsMeet(w, a.what, st1, st2, v, sig);
    } else {
      ActTwins(w, a.what, st1, st2, v, sig);
      var r1, r2 := RunAct(w, a.what, st1, sig), RunAct(w, a.what, st2, sig);
      assert x[1..] == middle[1..] + [last] + after;
      assert (middle + [last])[1..] == middle[1..] + [last];
      if r1.ActOk? {
        if Sure(a.what) { SureSucceeds(w, a.what, st1, sig); }
        MeetAgain(w, middle[1..], last, after, Sure(a.what), r1.success, r1.st, r2.st, v, r1.sig);
      }
    }
  }

  // A set that is overwritten further on may be replaced by a constant.
  lemma OverwriteSound(
      w: World, before: seq<Act>, a: Act, middle: seq<Act>, last: Act, after: seq<Act>,
      success: bool, st: St, sig: Sig)
    requires IsSet(a.what) && SetShaped(a.what) && SameTarget(a.what, last.what)
    requires Quiet(a.what.args[1]) && Through(middle + [last], true)
    requires forall b | b in middle + [last] :: Target(a.what) !in ActReads(b.what) && SetShaped(b.what)
    ensures Better(RunChain(w, before + [a] + (middle + [last] + after), success, st, sig),
                   RunChain(w, before + [Act(a.con, TRUE)] + (middle + [last] + after), success, st, sig))
  {
    var rest := middle + [last] + after;
    RunAround(w, before, a, rest, success, st, sig);
    RunAround(w, before, Act(a.con, TRUE), rest, success, st, sig);
    var f := RunFront(w, before, success, st, sig);
    if f.Here? && Taken(a.con, f.success) {
      RunFirst(w, a, rest, f.success, f.st, f.sig);
      RunFirst(w, Act(a.con, TRUE), rest, f.success, f.st, f.sig);
      QuietNoEffect(w, a.what.args[1], f.st, f.sig);
      var r := RunAct(w, a.what, f.st, f.sig);
      if r.ActOk? {
        assert Twins(r.st, f.st, Target(a.what));
        MeetAgain(w, middle, last, after, true, true, r.st, f.st, Target(a.what), f.sig);
      }
    }
  }
}
