// What the dispatcher notes in its log (extern/conc.go, tree/interp.go), step
// by step: which section each run is for, what it sees, and which signals
// and paths arrived between.
module Ledger {
  import opened Wrappers
  import opened Semantics
  import opened Dispatch

  // The steps of the dispatcher that end a receive with something to note.
  predicate IsNoted(a: Step) {
    a.DisRun? || a.DisPollRun? || a.DisPath? || (a.DisSignal? && !a.signal.SigOther?)
  }

  function Noted(steps: seq<Step>): seq<Step> {
    if steps == [] then []
    else (if IsNoted(steps[0]) then [steps[0]] else []) + Noted(steps[1..])
  }

  // A message is served by the section of its own type, with the message in
  // hand; a poll by the section External, without one.
  ghost predicate Entry(c: Config, ev: Happening, a: Step) {
    match a
    case DisRun(w, t, u) =>
      ev.Served? && ev.input == Run(w, ev.m.kind, t, u) && w.msg == Some(ev.m.ctx) && w.levels == c.levels
    case DisPollRun(w, t, u) =>
      ev.Polled? && ev.input == Run(w, "External", t, u) && w.msg == None && w.levels == c.levels
    case DisPath(p) => ev == Path(p)
    case DisSignal(SigUsr1) => ev == Usr(Usr1)
    case DisSignal(SigUsr2) => ev == Usr(Usr2)
    case _ => false
  }

  ghost predicate Entries(c: Config, log: seq<Happening>, noted: seq<Step>) {
    |log| == |noted| && forall i | 0 <= i < |log| :: Entry(c, log[i], noted[i])
  }

  lemma StepNoted(c: Config, s: Sys, a: Step)
    requires Enabled(c, s, a)
    ensures
      var log := Next(c, s, a).log;
      if IsNoted(a) then |log| == |s.log| + 1 && log[..|s.log|] == s.log && Entry(c, log[|s.log|], a) else log == s.log
  {
  }

  lemma StepEntered(c: Config, s: Sys, a: Step, noted: seq<Step>)
    requires Enabled(c, s, a) && Entries(c, s.log, noted)
    ensures Entries(c, Next(c, s, a).log, noted + if IsNoted(a) then [a] else [])
  {
    hide Next, Enabled, Entry;
    StepNoted(c, s, a);
    var log := Next(c, s, a).log;
    assert noted + [] == noted;
    if IsNoted(a) {
      forall i | 0 <= i < |log| ensures Entry(c, log[i], (noted + [a])[i]) {
        assert i < |s.log| ==> log[i] == log[..|s.log|][i];
      }
    }
  }

  lemma {:induction false} LogExtends(c: Config, s: Sys, steps: seq<Step>, noted: seq<Step>)
    requires Entries(c, s.log, noted) && After(c, s, steps).Some?
    ensures Entries(c, After(c, s, steps).value.log, noted + Noted(steps))
    decreases steps
  {
    hide Next, Enabled, Entries;
    if steps == [] {
      assert noted + Noted(steps) == noted;
    } else {
      var a := steps[0];
      var s1 := Next(c, s, a);
      StepEntered(c, s, a, noted);
      var here := if IsNoted(a) then [a] else [];
      LogExtends(c, s1, steps[1..], noted + here);
      assert noted + Noted(steps) == (noted + here) + Noted(steps[1..]);
    }
  }

  // Every interleaving: the log has one entry for each of these steps, in
  // their order, and the messages served are those decoded, in theirs.
  lemma LedgerExact(c: Config, steps: seq<Step>)
    requires After(c, Init(c), steps).Some?
    ensures Entries(c, After(c, Init(c), steps).value.log, Noted(steps))
    ensures Executed(After(c, Init(c), steps).value.log) <= Decoded(steps)
  {
    LogExtends(c, Init(c), steps, []);
    assert [] + Noted(steps) == Noted(steps);
    InOrder(c, steps);
  }

  // While the dispatcher is in its select, a path, a poll and a signal can
  // always come, and what is in the channel can be taken: a message to be run,
  // or the nil that ends the process with code 0.  Any other signal ends it
  // with code 1.
  lemma SelectOffers(c: Config, s: Sys, path: string, sig: Signal)
    requires s.dis.Selecting?
    ensures Enabled(c, s, DisPath(path)) && Enabled(c, s, DisPoll) && Enabled(c, s, DisSignal(sig))
    ensures Enabled(c, s, DisTake) <==> s.mc != [] || s.closed
    ensures
      s.mc != [] ==>
        Next(c, s, DisTake) == s.(mc := s.mc[1..], dis := if s.mc[0].Some? then Executing(s.mc[0].value) else Gone(0))
    ensures Next(c, s, DisSignal(SigOther)) == s.(dis := Gone(1))
  {
  }
}
