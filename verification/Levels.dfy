// The alert level over whole runs (extern/actions.go, tree/builtins.go): it
// never leaves the program's levels, and it never falls below a level that is
// not soft once it has reached it.
module Levels {
  import opened Wrappers
  import opened Int64
  import opened Syntax
  import opened Semantics

  predicate Distinct(ls: seq<LevelDecl>) {
    forall i, j | 0 <= i < j < |ls| :: ls[i].name != ls[j].name
  }

  // Up, nowhere, or down by one from a soft level.
  predicate Legal(ls: seq<LevelDecl>, from: nat, to: nat) {
    to < |ls| && from < |ls| && (to >= from || (ls[from].soft && to + 1 == from))
  }

  function Place(ls: seq<LevelDecl>, name: string): (i: nat)
    ensures i <= |ls| && (i < |ls| ==> ls[i].name == name)
    ensures i == |ls| ==> forall k | 0 <= k < |ls| :: ls[k].name != name
  {
    if ls == [] then 0 else if ls[0].name == name then 0 else 1 + Place(ls[1..], name)
  }

  // The level that the recorded triggers lead to, one after the other from
  // level 0.  None: a trigger started elsewhere, or made an illegal move.
  function Replay(ls: seq<LevelDecl>, trace: seq<Event>): (r: Option<nat>)
    ensures r.Some? ==> r.value < |ls|
  {
    if ls == [] then None
    else if trace == [] then Some(0)
    else
      var before := Replay(ls, trace[..|trace| - 1]);
      var ev := trace[|trace| - 1];
      if before.None? || !ev.TriggerEv? then before
      else if ls[before.value].name != ev.from then None
      else if !ev.done then before
      else
        var to := Place(ls, ev.to);
        if Legal(ls, before.value, to) then Some(to) else None
  }

  // The level is the one the history leads to.
  predicate OnPath(ls: seq<LevelDecl>, st: St) {
    && 0 <= st.lvl < |ls| < TWO63 && Replay(ls, st.trace) == Some(st.lvl as nat)
    && (!st.init ==> st.lvl == 0)
  }

  lemma ReplayTrigger(ls: seq<LevelDecl>, trace: seq<Event>, from: nat, to: nat, done: bool)
    requires Distinct(ls) && Replay(ls, trace) == Some(from) && Legal(ls, from, to)
    ensures Replay(ls, trace + [TriggerEv(ls[from].name, ls[to].name, done)]) == Some(if done then to else from)
  {
    assert (trace + [TriggerEv(ls[from].name, ls[to].name, done)])[..|trace|] == trace;
    assert Place(ls, ls[to].name) == to;
  }

  // Whether trigger gets as far as running the scripts.
  predicate Tries(ls: seq<LevelDecl>, st: St, to: int64)
    requires 0 <= st.lvl && 0 <= to
  {
    (to != st.lvl || !st.init) && Legal(ls, st.lvl, to)
  }

  // A trigger runs the scripts exactly when the move is legal and does not
  // stay on a level already entered; it succeeds when they do, or when it
  // stays.
  lemma TriggerExact(w: World, to: int64, st: St)
    requires OnPath(w.levels, st) && Distinct(w.levels) && 0 <= to < |w.levels|
    ensures
      var (ok, st') := TriggerStep(w, to, w.levels[to].name, st);
      var ev := TriggerEv(w.levels[st.lvl].name, w.levels[to].name, ok);
      if Tries(w.levels, st, to) then
        st' == St(st.vars, if ok then to else st.lvl, true, st.trace + [ev])
        && ok == w.scripts(st.trace, ev.from, ev.to)
      else
        st' == st.(init := true) && ok == (to == st.lvl)
  {
    assert LevelName(w, st.lvl) == w.levels[st.lvl].name;
    if to != st.lvl { assert w.levels[to].name != w.levels[st.lvl].name; }
  }

  // A trigger keeps the level on the path.
  lemma TriggerOnward(w: World, to: int64, st: St)
    requires OnPath(w.levels, st) && Distinct(w.levels) && 0 <= to < |w.levels|
    ensures
      var (ok, st') := TriggerStep(w, to, w.levels[to].name, st);
      OnPath(w.levels, st') && Onward(w.levels, st.trace, st'.trace)
  {
    TriggerExact(w, to, st);
    if Tries(w.levels, st, to) {
      var ok := w.scripts(st.trace, w.levels[st.lvl].name, w.levels[to].name);
      ReplayTrigger(w.levels, st.trace, st.lvl, to, ok);
    }
  }

  // The level constants handed to trigger are levels of the program.
  predicate TriggerLinked(ls: seq<LevelDecl>, e: Expr) {
    e.Call? && e.fn == FTrigger && |e.args| == 1 && e.args[0].Level? ==>
      0 <= e.args[0].idx < |ls| && e.args[0].name == ls[e.args[0].idx].name
  }

  predicate RuleLinked(ls: seq<LevelDecl>, r: Rule) {
    forall k | 0 <= k < |r.acts| :: TriggerLinked(ls, r.acts[k].what)
  }

  predicate ProgLinked(ls: seq<LevelDecl>, ss: seq<Section>) {
    forall i | 0 <= i < |ss| :: RulesLinked(ls, ss[i].rules)
  }

  predicate RulesLinked(ls: seq<LevelDecl>, rs: seq<Rule>) {
    forall j | 0 <= j < |rs| :: RuleLinked(ls, rs[j])
  }

  // The trace grows, and no trigger on it was illegal.
  predicate Onward(ls: seq<LevelDecl>, before: seq<Event>, trace: seq<Event>) {
    before <= trace && Replay(ls, trace).Some?
  }

  predicate RunOnward(ls: seq<LevelDecl>, st: St, r: RunRes) {
    match r
    case Done(st', _) => OnPath(ls, st') && Onward(ls, st.trace, st'.trace)
    case Stop(t) => Onward(ls, st.trace, t)
    case Fail(_) => true
  }

  lemma OtherEvent(ls: seq<LevelDecl>, trace: seq<Event>, ev: Event)
    requires !ev.TriggerEv?
    ensures Replay(ls, trace + [ev]) == Replay(ls, trace)
  {
    assert (trace + [ev])[..|trace|] == trace;
  }

  lemma ActOnward(w: World, e: Expr, st: St, sig: Sig)
    requires OnPath(w.levels, st) && Distinct(w.levels) && TriggerLinked(w.levels, e)
    ensures
      match RunAct(w, e, st, sig)
      case ActOk(_, st', _) => OnPath(w.levels, st') && Onward(w.levels, st.trace, st'.trace)
      case ActStop(t) => Onward(w.levels, st.trace, t)
      case ActFault(_) => true
  {
    if e.Call? && IsAction(e.fn) && e.fn != FSet {
      if e.fn == FTrigger {
        if |e.args| == 1 && e.args[0].Level? { TriggerOnward(w, e.args[0].idx, st); }
      } else {
        var rs := EvalAll(w, e.args, st, sig);
        if rs.Oks? { OutwardOnward(w, e.fn, rs.vs, st, rs.sig); }
      }
    }
  }

  lemma OutwardOnward(w: World, f: Fn, vs: seq<Value>, st: St, sig: Sig)
    requires OnPath(w.levels, st)
    ensures
      match DoAction(w, f, vs, st, sig)
      case ActOk(_, st', _) => OnPath(w.levels, st') && Onward(w.levels, st.trace, st'.trace)
      case ActStop(t) => Onward(w.levels, st.trace, t)
      case ActFault(_) => true
  {
    var r := DoAction(w, f, vs, st, sig);
    var t := if r.ActOk? then r.st.trace else if r.ActStop? then r.trace else st.trace;
    if t != st.trace {
      assert t == st.trace + [t[|st.trace|]];
      OtherEvent(w.levels, st.trace, t[|st.trace|]);
    }
  }

  lemma {:induction false} ChainOnward(w: World, acts: seq<Act>, success: bool, st: St, sig: Sig)
    requires OnPath(w.levels, st) && Distinct(w.levels)
    requires forall k | 0 <= k < |acts| :: TriggerLinked(w.levels, acts[k].what)
    ensures RunOnward(w.levels, st, RunChain(w, acts, success, st, sig))
    decreases acts
  {
    if acts != [] && Taken(acts[0].con, success) {
      ActOnward(w, acts[0].what, st, sig);
      var r := RunAct(w, acts[0].what, st, sig);
      if r.ActOk? { ChainOnward(w, acts[1..], r.success, r.st, r.sig); }
    }
  }

  lemma {:induction false} RulesOnward(w: World, rs: seq<Rule>, st: St, sig: Sig)
    requires OnPath(w.levels, st) && Distinct(w.levels) && RulesLinked(w.levels, rs)
    ensures RunOnward(w.levels, st, RunRules(w, rs, st, sig))
    decreases rs
  {
    if rs != [] {
      var v := Eval(w, rs[0].expr, st, sig);
      if v.Ok? {
        assert RuleLinked(w.levels, rs[0]);
        ChainOnward(w, rs[0].acts, true, st, v.sig);
        var r := RunRule(w, rs[0], st, sig);
        if r.Done? { RulesOnward(w, rs[1..], r.st, r.sig); }
      }
    }
  }

  lemma {:induction false} SectionsOnward(w: World, ss: seq<Section>, kind: string, st: St, sig: Sig)
    requires OnPath(w.levels, st) && Distinct(w.levels) && ProgLinked(w.levels, ss)
    ensures RunOnward(w.levels, st, RunSections(w, ss, kind, st, sig))
    decreases ss
  {
    if ss != [] {
      if ss[0].id == kind {
        RulesOnward(w, ss[0].rules, st, sig);
      } else {
        SectionsOnward(w, ss[1..], kind, st, sig);
      }
    }
  }

  // Over a whole run, whatever arrives, the level stays on a legal path
  // through the levels of the program.
  lemma {:induction false} StreamOnward(p: Prog, inputs: seq<Input>, st: St, sig: Sig, ls: seq<LevelDecl>)
    requires OnPath(ls, st) && Distinct(ls) && ProgLinked(ls, p.sections) && SameLevels(inputs, ls)
    ensures RunOnward(ls, st, RunStream(p, inputs, st, sig))
    decreases inputs
  {
    if inputs != [] {
      match inputs[0]
      case Usr1 => StreamOnward(p, inputs[1..], st, sig.(usr1 := sig.usr1 + 1), ls);
      case Usr2 => StreamOnward(p, inputs[1..], st, sig.(usr2 := sig.usr2 + 1), ls);
      case Run(w, kind, t, u) =>
        SectionsOnward(w, p.sections, kind, SetPredef(st, t, u), sig);
        var r := RunSections(w, p.sections, kind, SetPredef(st, t, u), sig);
        if r.Done? { StreamOnward(p, inputs[1..], r.st, r.sig, ls); }
    }
  }

  // The floor: on a history of legal moves, a level that is not soft is never
  // left downwards.
  lemma {:induction false} Floor(ls: seq<LevelDecl>, trace: seq<Event>, k: nat, floor: nat)
    requires k <= |trace| && Replay(ls, trace).Some?
    requires floor < |ls| && !ls[floor].soft
    ensures Replay(ls, trace[..k]).Some?
    ensures Replay(ls, trace[..k]).value >= floor ==> Replay(ls, trace).value >= floor
    decreases |trace|
  {
    if k == |trace| {
      assert trace[..k] == trace;
    } else {
      assert trace[..|trace| - 1][..k] == trace[..k];
      Floor(ls, trace[..|trace| - 1], k, floor);
    }
  }

  function TraceOf(r: RunRes): seq<Event>
    requires !r.Fail?
  {
    if r.Done? then r.st.trace else r.trace
  }

  // The level floor over whole runs: from a state at or above a level that is
  // not soft, every later moment of the run is at or above it, also when the
  // run ends in a crash.
  lemma LevelFloor(p: Prog, inputs: seq<Input>, st: St, sig: Sig, ls: seq<LevelDecl>, floor: nat, k: nat)
    requires OnPath(ls, st) && Distinct(ls) && ProgLinked(ls, p.sections) && SameLevels(inputs, ls)
    requires floor < |ls| && !ls[floor].soft && st.lvl >= floor
    ensures var r := RunStream(p, inputs, st, sig); r.Done? ==> floor <= r.st.lvl < |ls|
    ensures var r := RunStream(p, inputs, st, sig);
      !r.Fail? && |st.trace| <= k <= |TraceOf(r)| ==>
        Replay(ls, TraceOf(r)[..k]).Some? && Replay(ls, TraceOf(r)[..k]).value >= floor
  {
    StreamOnward(p, inputs, st, sig, ls);
    var r := RunStream(p, inputs, st, sig);
    if !r.Fail? {
      var t := TraceOf(r);
      FloorBetween(ls, t, |st.trace|, |t|, floor);
      assert t[..|st.trace|] == st.trace && t[..|t|] == t;
      if |st.trace| <= k <= |t| { FloorBetween(ls, t, |st.trace|, k, floor); }
    }
  }

  lemma FloorBetween(ls: seq<LevelDecl>, trace: seq<Event>, i: nat, k: nat, floor: nat)
    requires i <= k <= |trace| && Replay(ls, trace).Some?
    requires floor < |ls| && !ls[floor].soft
    ensures Replay(ls, trace[..i]).Some? && Replay(ls, trace[..k]).Some?
    ensures Replay(ls, trace[..i]).value >= floor ==> Replay(ls, trace[..k]).value >= floor
  {
    Floor(ls, trace, k, floor);
    assert trace[..k][..i] == trace[..i];
    Floor(ls, trace[..k], i, floor);
  }
}
