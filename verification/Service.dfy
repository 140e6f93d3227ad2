// What holds of the running service, in every interleaving of decoder,
// dispatcher, polls, paths and signals: the theorems about runs of a program,
// carried over to the process that runs it (extern/conc.go, tree/interp.go).
module Service {
  import opened Syntax
  import opened Semantics
  import opened TypeCheck
  import opened Soundness
  import opened Fold
  import opened ProgFold
  import Levels
  import Signals
  import opened Dispatch

  predicate LogFaced(c: Config, log: seq<Happening>) {
    SameLevels(Inputs(log), c.levels)
  }

  lemma NoteFaced(c: Config, log: seq<Happening>, ev: Happening)
    requires LogFaced(c, log) && (!ev.Path? && ev.input.Run? ==> ev.input.w.levels == c.levels)
    ensures LogFaced(c, log + [ev])
  {
    Logged(log, ev);
  }

  lemma StepFaced(c: Config, s: Sys, a: Step)
    requires LogFaced(c, s.log) && Enabled(c, s, a)
    ensures LogFaced(c, Next(c, s, a).log)
  {
    var log' := Next(c, s, a).log;
    if log' != s.log {
      assert log' == s.log + [log'[|s.log|]];
      NoteFaced(c, s.log, log'[|s.log|]);
    }
  }

  lemma {:induction false} RunFaced(c: Config, s: Sys, steps: seq<Step>)
    requires LogFaced(c, s.log) && After(c, s, steps).Some?
    ensures LogFaced(c, After(c, s, steps).value.log)
    decreases steps
  {
    if steps != [] {
      StepFaced(c, s, steps[0]);
      RunFaced(c, Next(c, s, steps[0]), steps[1..]);
    }
  }

  function End(c: Config, steps: seq<Step>): Sys
    requires After(c, Init(c), steps).Some?
  {
    After(c, Init(c), steps).value
  }

  // No interleaving makes a variable lose its type, and only a division by
  // zero, a failing query or a crash action ends the process from within.
  lemma ServiceTyped(c: Config, steps: seq<Step>, g: Scope)
    requires After(c, Init(c), steps).Some?
    requires ProgSafe(c.prog.sections, g) && StoreTyped(c.st, g)
    ensures
      var s := End(c, steps);
      var r := RunStream(c.prog, Inputs(s.log), c.st, c.sig);
      if s.dis == Gone(2) then r.Stop? || (r.Fail? && FaultExcused(r.fault)) else StoreTyped(s.st, g)
  {
    OneRun(c, steps);
    StreamSound(c.prog, Inputs(End(c, steps).log), c.st, c.sig, g);
  }

  // Every level that is not soft is a floor for the service.
  lemma ServiceFloor(c: Config, steps: seq<Step>, floor: nat)
    requires After(c, Init(c), steps).Some? && End(c, steps).dis != Gone(2)
    requires Levels.OnPath(c.levels, c.st) && Levels.Distinct(c.levels) && Levels.ProgLinked(c.levels, c.prog.sections)
    requires floor < |c.levels| && !c.levels[floor].soft && c.st.lvl >= floor
    ensures floor <= End(c, steps).st.lvl < |c.levels|
  {
    var s := End(c, steps);
    OneRun(c, steps);
    RunFaced(c, Init(c), steps);
    Levels.LevelFloor(c.prog, Inputs(s.log), c.st, c.sig, c.levels, floor, 0);
  }

  // Received user signals are pending or answered.
  lemma ServiceSignals(c: Config, steps: seq<Step>)
    requires After(c, Init(c), steps).Some? && End(c, steps).dis != Gone(2)
    ensures
      var s := End(c, steps);
      Signals.Conserved(Signals.Plus(c.sig, Signals.Arrived(Inputs(s.log))),
                        Signals.AsksStream(c.prog, Inputs(s.log), c.st, c.sig), s.sig)
  {
    OneRun(c, steps);
    Signals.StreamConserved(c.prog, Inputs(End(c, steps).log), c.st, c.sig);
  }

  // Folding the program before it is served changes nothing that can be seen:
  // on what the dispatcher received, the folded program ends in the same
  // store, level, counters and events.
  lemma ServiceFolded(k: Compilers, c: Config, steps: seq<Step>, g: Scope)
    requires After(c, Init(c), steps).Some? && End(c, steps).dis != Gone(2)
    requires SectionsRooted(c.prog.sections) && ProgFoldable(k, c.prog.sections, g, c.levels) && StoreTyped(c.st, g)
    requires FoldSections(k, c.prog.sections).errors == 0
    ensures
      var s := End(c, steps);
      RunStream(Prog(FoldSections(k, c.prog.sections).sections), Inputs(s.log), c.st, c.sig) == Done(s.st, s.sig)
  {
    var s := End(c, steps);
    OneRun(c, steps);
    RunFaced(c, Init(c), steps);
    ProgramFoldSound(k, c.prog, Inputs(s.log), c.st, c.sig, g, c.levels);
  }
}
