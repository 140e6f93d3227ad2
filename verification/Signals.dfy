// User signals are conserved (extern/expr.go Signal, extern/conc.go): over a
// whole run, those received are those still pending plus the answers "yes"
// that the program got from signal.
module Signals {
  import opened Syntax
  import opened Semantics

  // One call of signal, and its answer.
  datatype Ask = Ask(name: string, yes: bool)

  function Yes(asks: seq<Ask>, name: string): nat {
    if asks == [] then 0 else (if asks[0] == Ask(name, true) then 1 else 0) + Yes(asks[1..], name)
  }

  lemma {:induction false} YesConcat(xs: seq<Ask>, ys: seq<Ask>, name: string)
    ensures Yes(xs + ys, name) == Yes(xs, name) + Yes(ys, name)
  {
    if xs == [] {
      assert xs + ys == ys;
    } else {
      assert (xs + ys)[0] == xs[0] && (xs + ys)[1..] == xs[1..] + ys;
      YesConcat(xs[1..], ys, name);
    }
  }

  // What was pending is what is left plus what was answered.
  predicate Conserved(before: Sig, asks: seq<Ask>, after: Sig) {
    before.usr1 == after.usr1 + Yes(asks, "SIGUSR1") && before.usr2 == after.usr2 + Yes(asks, "SIGUSR2")
  }

  lemma Join(a: Sig, xs: seq<Ask>, b: Sig, ys: seq<Ask>, c: Sig)
    requires Conserved(a, xs, b) && Conserved(b, ys, c)
    ensures Conserved(a, xs + ys, c)
  {
    YesConcat(xs, ys, "SIGUSR1");
    YesConcat(xs, ys, "SIGUSR2");
  }

  // ----- the calls of signal during an evaluation -----

  function Asks(w: World, e: Expr, st: St, sig: Sig): seq<Ask>
    decreases e
  {
    match e
    case Call(f, args, _) =>
      if IsAction(f) then []
      else
        var rs := EvalAll(w, args, st, sig);
        AsksAll(w, args, st, sig)
        + if f == FSignal && rs.Oks? && |rs.vs| > 0
          then [Ask(StrField(rs.vs[0]), SignalStep(StrField(rs.vs[0]), rs.sig).0)] else []
    case Bin(op, l, r, _) =>
      var a := Eval(w, l, st, sig);
      Asks(w, l, st, sig) + if a.Err? || IsShort(op, a.v) then [] else Asks(w, r, st, a.sig)
    case Un(_, r, _) => Asks(w, r, st, sig)
    case _ => []
  }

  function AsksAll(w: World, es: seq<Expr>, st: St, sig: Sig): seq<Ask>
    decreases es
  {
    if es == [] then []
    else
      var a := Eval(w, es[0], st, sig);
      Asks(w, es[0], st, sig) + if a.Err? then [] else AsksAll(w, es[1..], st, a.sig)
  }

  function AsksAct(w: World, e: Expr, st: St, sig: Sig): seq<Ask> {
    if !(e.Call? && IsAction(e.fn)) then Asks(w, e, st, sig)
    else if e.fn == FSet then if |e.args| == 2 then Asks(w, e.args[1], st, sig) else []
    else if e.fn == FTrigger then []
    else AsksAll(w, e.args, st, sig)
  }

  function AsksChain(w: World, acts: seq<Act>, success: bool, st: St, sig: Sig): seq<Ask>
    decreases acts
  {
    if acts == [] || !Taken(acts[0].con, success) then []
    else
      var r := RunAct(w, acts[0].what, st, sig);
      AsksAct(w, acts[0].what, st, sig) + if r.ActOk? then AsksChain(w, acts[1..], r.success, r.st, r.sig) else []
  }

  function AsksRules(w: World, rs: seq<Rule>, st: St, sig: Sig): seq<Ask>
    decreases rs
  {
    if rs == [] then []
    else
      var v := Eval(w, rs[0].expr, st, sig);
      var r := RunRule(w, rs[0], st, sig);
      Asks(w, rs[0].expr, st, sig)
      + (if v.Ok? && BoolField(v.v) then AsksChain(w, rs[0].acts, true, st, v.sig) else [])
      + (if r.Done? then AsksRules(w, rs[1..], r.st, r.sig) else [])
  }

  function AsksSections(w: World, ss: seq<Section>, kind: string, st: St, sig: Sig): seq<Ask>
    decreases ss
  {
    if ss == [] then []
    else if ss[0].id == kind then AsksRules(w, ss[0].rules, st, sig)
    else AsksSections(w, ss[1..], kind, st, sig)
  }

  function AsksStream(p: Prog, inputs: seq<Input>, st: St, sig: Sig): seq<Ask>
    decreases inputs
  {
    if inputs == [] then []
    else match inputs[0]
      case Usr1 => AsksStream(p, inputs[1..], st, sig.(usr1 := sig.usr1 + 1))
      case Usr2 => AsksStream(p, inputs[1..], st, sig.(usr2 := sig.usr2 + 1))
      case Run(w, kind, t, u) =>
        var r := RunSections(w, p.sections, kind, SetPredef(st, t, u), sig);
        AsksSections(w, p.sections, kind, SetPredef(st, t, u), sig)
        + if r.Done? then AsksStream(p, inputs[1..], r.st, r.sig) else []
  }

  // ----- conservation -----

  // Every call answers yes exactly when it takes one signal off its counter.
  lemma SignalConserved(name: string, sig: Sig)
    ensures
      var (yes, sig') := SignalStep(name, sig);
      Conserved(sig, [Ask(name, yes)], sig') && (!yes ==> sig' == sig)
  {
    var asks := [Ask(name, SignalStep(name, sig).0)];
    assert asks[1..] == [];
  }

  lemma {:induction false} EvalConserved(w: World, e: Expr, st: St, sig: Sig)
    ensures var r := Eval(w, e, st, sig); r.Ok? ==> Conserved(sig, Asks(w, e, st, sig), r.sig)
    decreases e
  {
    match e
    case Call(f, args, _) =>
      if !IsAction(f) {
        EvalAllConserved(w, args, st, sig);
        CallConserved(w, e, st, sig);
      }
    case Bin(op, l, r, _) =>
      EvalConserved(w, l, st, sig);
      var a := Eval(w, l, st, sig);
      if a.Ok? {
        EvalConserved(w, r, st, a.sig);
        BinConserved(w, e, st, sig);
      }
    case Un(_, r, _) => EvalConserved(w, r, st, sig);
    case _ =>
  }

  lemma CallConserved(w: World, e: Expr, st: St, sig: Sig)
    requires e.Call? && !IsAction(e.fn)
    requires var rs := EvalAll(w, e.args, st, sig); rs.Oks? ==> Conserved(sig, AsksAll(w, e.args, st, sig), rs.sig)
    ensures var r := Eval(w, e, st, sig); r.Ok? ==> Conserved(sig, Asks(w, e, st, sig), r.sig)
  {
    var rs := EvalAll(w, e.args, st, sig);
    var xs := AsksAll(w, e.args, st, sig);
    if rs.Oks? && e.fn == FSignal && |rs.vs| > 0 {
      var name := StrField(rs.vs[0]);
      var (yes, sig') := SignalStep(name, rs.sig);
      SignalConserved(name, rs.sig);
      Join(sig, xs, rs.sig, [Ask(name, yes)], sig');
    } else {
      assert xs + [] == xs;
    }
  }

  lemma BinConserved(w: World, e: Expr, st: St, sig: Sig)
    requires e.Bin?
    requires var a := Eval(w, e.left, st, sig);
      && a.Ok? && Conserved(sig, Asks(w, e.left, st, sig), a.sig)
      && var b := Eval(w, e.right, st, a.sig); b.Ok? ==> Conserved(a.sig, Asks(w, e.right, st, a.sig), b.sig)
    ensures var r := Eval(w, e, st, sig); r.Ok? ==> Conserved(sig, Asks(w, e, st, sig), r.sig)
  {
    var a := Eval(w, e.left, st, sig);
    var xs := Asks(w, e.left, st, sig);
    if IsShort(e.op, a.v) {
      assert xs + [] == xs;
    } else {
      var b := Eval(w, e.right, st, a.sig);
      if b.Ok? { Join(sig, xs, a.sig, Asks(w, e.right, st, a.sig), b.sig); }
    }
  }

  lemma {:induction false} EvalAllConserved(w: World, es: seq<Expr>, st: St, sig: Sig)
    ensures var r := EvalAll(w, es, st, sig); r.Oks? ==> Conserved(sig, AsksAll(w, es, st, sig), r.sig)
    decreases es
  {
    if es != [] {
      EvalConserved(w, es[0], st, sig);
      var a := Eval(w, es[0], st, sig);
      if a.Ok? {
        EvalAllConserved(w, es[1..], st, a.sig);
        var rest := EvalAll(w, es[1..], st, a.sig);
        if rest.Oks? { Join(sig, Asks(w, es[0], st, sig), a.sig, AsksAll(w, es[1..], st, a.sig), rest.sig); }
      }
    }
  }

  lemma ActConserved(w: World, e: Expr, st: St, sig: Sig)
    ensures var r := RunAct(w, e, st, sig); r.ActOk? ==> Conserved(sig, AsksAct(w, e, st, sig), r.sig)
  {
    if !(e.Call? && IsAction(e.fn)) {
      EvalConserved(w, e, st, sig);
    } else if e.fn == FSet {
      if |e.args| == 2 { EvalConserved(w, e.args[1], st, sig); }
    } else if e.fn != FTrigger {
      EvalAllConserved(w, e.args, st, sig);
    }
  }

  lemma {:induction false} ChainConserved(w: World, acts: seq<Act>, success: bool, st: St, sig: Sig)
    ensures var r := RunChain(w, acts, success, st, sig);
      r.Done? ==> Conserved(sig, AsksChain(w, acts, success, st, sig), r.sig)
    decreases acts
  {
    if acts != [] && Taken(acts[0].con, success) {
      ActConserved(w, acts[0].what, st, sig);
      var r := RunAct(w, acts[0].what, st, sig);
      if r.ActOk? {
        ChainConserved(w, acts[1..], r.success, r.st, r.sig);
        var rest := RunChain(w, acts[1..], r.success, r.st, r.sig);
        if rest.Done? {
          Join(sig, AsksAct(w, acts[0].what, st, sig), r.sig,
               AsksChain(w, acts[1..], r.success, r.st, r.sig), rest.sig);
        }
      }
    }
  }

  lemma {:induction false} RulesConserved(w: World, rs: seq<Rule>, st: St, sig: Sig)
    ensures var r := RunRules(w, rs, st, sig); r.Done? ==> Conserved(sig, AsksRules(w, rs, st, sig), r.sig)
    decreases rs
  {
    if rs != [] {
      var v := Eval(w, rs[0].expr, st, sig);
      var r := RunRule(w, rs[0], st, sig);
      if r.Done? {
        RuleConserved(w, rs[0], st, sig);
        RulesConserved(w, rs[1..], r.st, r.sig);
        var rest := RunRules(w, rs[1..], r.st, r.sig);
        if rest.Done? {
          var chain := if BoolField(v.v) then AsksChain(w, rs[0].acts, true, st, v.sig) else [];
          Join(sig, Asks(w, rs[0].expr, st, sig) + chain, r.sig, AsksRules(w, rs[1..], r.st, r.sig), rest.sig);
        }
      }
    }
  }

  lemma RuleConserved(w: World, rule: Rule, st: St, sig: Sig)
    ensures var v, r := Eval(w, rule.expr, st, sig), RunRule(w, rule, st, sig);
      r.Done? ==>
        var chain := if BoolField(v.v) then AsksChain(w, rule.acts, true, st, v.sig) else [];
        Conserved(sig, Asks(w, rule.expr, st, sig) + chain, r.sig)
  {
    var v := Eval(w, rule.expr, st, sig);
    EvalConserved(w, rule.expr, st, sig);
    if v.Ok? {
      if BoolField(v.v) {
        ChainConserved(w, rule.acts, true, st, v.sig);
        var r := RunChain(w, rule.acts, true, st, v.sig);
        if r.Done? {
          Join(sig, Asks(w, rule.expr, st, sig), v.sig, AsksChain(w, rule.acts, true, st, v.sig), r.sig);
        }
      } else {
        assert Asks(w, rule.expr, st, sig) + [] == Asks(w, rule.expr, st, sig);
      }
    }
  }

  lemma {:induction false} SectionsConserved(w: World, ss: seq<Section>, kind: string, st: St, sig: Sig)
    ensures var r := RunSections(w, ss, kind, st, sig);
      r.Done? ==> Conserved(sig, AsksSections(w, ss, kind, st, sig), r.sig)
    decreases ss
  {
    if ss != [] {
      if ss[0].id == kind {
        RulesConserved(w, ss[0].rules, st, sig);
      } else {
        SectionsConserved(w, ss[1..], kind, st, sig);
      }
    }
  }

  // The user signals that arrive.
  function Arrived(inputs: seq<Input>): Sig {
    if inputs == [] then Sig(0, 0)
    else
      var rest := Arrived(inputs[1..]);
      match inputs[0]
      case Usr1 => rest.(usr1 := rest.usr1 + 1)
      case Usr2 => rest.(usr2 := rest.usr2 + 1)
      case _ => rest
  }

  function Plus(a: Sig, b: Sig): Sig {
    Sig(a.usr1 + b.usr1, a.usr2 + b.usr2)
  }

  // Over a whole run, whatever arrives and whatever the program does: pending
  // at the start plus received is pending at the end plus answered.
  lemma {:induction false} StreamConserved(p: Prog, inputs: seq<Input>, st: St, sig: Sig)
    ensures var r := RunStream(p, inputs, st, sig);
      r.Done? ==> Conserved(Plus(sig, Arrived(inputs)), AsksStream(p, inputs, st, sig), r.sig)
    decreases inputs
  {
    if inputs != [] {
      match inputs[0]
      case Usr1 => StreamConserved(p, inputs[1..], st, sig.(usr1 := sig.usr1 + 1));
      case Usr2 => StreamConserved(p, inputs[1..], st, sig.(usr2 := sig.usr2 + 1));
      case Run(w, kind, t, u) =>
        var st' := SetPredef(st, t, u);
        var r := RunSections(w, p.sections, kind, st', sig);
        if r.Done? {
          SectionsConserved(w, p.sections, kind, st', sig);
          StreamConserved(p, inputs[1..], r.st, r.sig);
          var end := RunStream(p, inputs[1..], r.st, r.sig);
          if end.Done? {
            var arrived := Arrived(inputs[1..]);
            Join(Plus(sig, arrived), AsksSections(w, p.sections, kind, st', sig), Plus(r.sig, arrived),
                 AsksStream(p, inputs[1..], r.st, r.sig), end.sig);
          }
        }
    }
  }
}
