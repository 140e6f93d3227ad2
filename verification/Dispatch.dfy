// The decoder and the dispatcher (extern/conc.go, rips/rips.go) as two
// processes that share two channels of capacity one: mc carries messages,
// nil to start and nil to end; mcr carries acknowledgements.
module Dispatch {
  import opened Wrappers
  import opened Int64
  import opened Syntax
  import opened Semantics

  const CAPACITY := 1
  const POLL_KIND := "External"

  datatype Msg = Msg(ctx: MsgCtx, kind: string)

  // Where the decoder is: about to send the kick-off, decoding, about to send
  // a message, waiting for its acknowledgement, about to send the final nil,
  // about to close the channel, out of its loop.
  datatype Decoder = Kick | Reading | Sending(m: Msg) | Waiting | Ending | Closing | Left

  // Where the dispatcher is: waiting for the kick-off, in the select, running
  // the program, about to acknowledge, gone with an exit code.
  datatype Dispatcher = Starting | Selecting | Executing(m: Msg) | Polling | Replying | Gone(code: int)

  // What the dispatcher has done, in order.
  datatype Happening =
    | Served(m: Msg, input: Input)
    | Polled(seen: set<string>, input: Input)
    | Path(path: string)
    | Usr(input: Input)

  datatype Sys = Sys(
    dec: Decoder, dis: Dispatcher,
    mc: seq<Option<Msg>>, closed: bool, mcr: nat,
    decoded: seq<Msg>, acked: nat,
    paths: set<string>, st: St, sig: Sig, log: seq<Happening>)

  datatype Config = Config(prog: Prog, levels: seq<LevelDecl>, st: St, sig: Sig)

  datatype Signal = SigUsr1 | SigUsr2 | SigOther

  datatype Step =
    | DecKick | DecRead(m: Msg) | DecError | DecSend | DecAck | DecEnd | DecClose
    | DisKick | DisTake | DisRun(w: World, time: int64, uptime: int64) | DisReply
    | DisPath(path: string) | DisPoll | DisPollRun(w: World, time: int64, uptime: int64)
    | DisSignal(signal: Signal)

  predicate IsDecoder(a: Step) {
    a.DecKick? || a.DecRead? || a.DecError? || a.DecSend? || a.DecAck? || a.DecEnd? || a.DecClose?
  }

  function Init(c: Config): Sys {
    Sys(Kick, Starting, [], false, 0, [], 0, {}, c.st, c.sig, [])
  }

  // A receive on mc: a closed channel that is empty yields nil.
  predicate CanReceive(s: Sys) {
    s.mc != [] || s.closed
  }

  function Head(s: Sys): Option<Msg> {
    if s.mc == [] then None else s.mc[0]
  }

  function Tail(s: Sys): seq<Option<Msg>> {
    if s.mc == [] then [] else s.mc[1..]
  }

  predicate Enabled(c: Config, s: Sys, a: Step) {
    if IsDecoder(a) then !s.dis.Gone? && DecEnabled(s, a) else DisEnabled(c, s, a)
  }

  predicate DecEnabled(s: Sys, a: Step)
    requires IsDecoder(a)
  {
    match a
    case DecKick => s.dec.Kick? && |s.mc| < CAPACITY
    case DecRead(_) => s.dec.Reading?
    case DecError => s.dec.Reading?
    case DecSend => s.dec.Sending? && |s.mc| < CAPACITY
    case DecAck => s.dec.Waiting? && s.mcr > 0
    case DecEnd => s.dec.Ending? && |s.mc| < CAPACITY
    case DecClose => s.dec.Closing?
  }

  predicate DisEnabled(c: Config, s: Sys, a: Step)
    requires !IsDecoder(a)
  {
    match a
    case DisKick => s.dis.Starting? && CanReceive(s)
    case DisTake => s.dis.Selecting? && CanReceive(s)
    case DisRun(w, _, _) => s.dis.Executing? && w.msg == Some(s.dis.m.ctx) && w.levels == c.levels
    case DisReply => s.dis.Replying? && s.mcr < CAPACITY
    case DisPath(_) => s.dis.Selecting?
    case DisPoll => s.dis.Selecting?
    case DisPollRun(w, _, _) => s.dis.Polling? && w.msg == None && w.levels == c.levels
    case DisSignal(_) => s.dis.Selecting?
  }

  function DecNext(s: Sys, a: Step): Sys
    requires IsDecoder(a) && DecEnabled(s, a)
  {
    match a
    case DecKick => s.(dec := Reading, mc := s.mc + [None])
    case DecRead(m) => s.(dec := Sending(m), decoded := s.decoded + [m])
    case DecError => s.(dec := Ending)
    case DecSend => s.(dec := Waiting, mc := s.mc + [Some(s.dec.m)])
    case DecAck => s.(dec := Reading, mcr := s.mcr - 1, acked := s.acked + 1)
    case DecEnd => s.(dec := Closing, mc := s.mc + [None])
    case DecClose => s.(dec := Left, closed := true)
  }

  // The program runs; a crash or a panic ends the process.
  function Execute(c: Config, s: Sys, input: Input): Sys
    requires input.Run?
  {
    var r := RunSections(input.w, c.prog.sections, input.kind, SetPredef(s.st, input.time, input.uptime), s.sig);
    if r.Done? then s.(st := r.st, sig := r.sig) else s.(dis := Gone(2))
  }

  function DisNext(c: Config, s: Sys, a: Step): Sys
    requires !IsDecoder(a) && DisEnabled(c, s, a)
  {
    match a
    case DisKick => s.(dis := Selecting, mc := Tail(s))
    case DisTake =>
      if Head(s).None? then s.(dis := Gone(0), mc := Tail(s))
      else s.(dis := Executing(Head(s).value), mc := Tail(s))
    case DisRun(w, t, u) =>
      var input := Run(w, s.dis.m.kind, t, u);
      Execute(c, s.(dis := Replying, log := s.log + [Served(s.dis.m, input)]), input)
    case DisReply => s.(dis := Selecting, mcr := s.mcr + 1)
    case DisPath(p) => s.(paths := s.paths + {p}, log := s.log + [Path(p)])
    case DisPoll => s.(dis := Polling)
    case DisPollRun(w, t, u) =>
      var input := Run(w, POLL_KIND, t, u);
      Execute(c, s.(dis := Selecting, paths := {}, log := s.log + [Polled(s.paths, input)]), input)
    case DisSignal(SigUsr1) => s.(sig := s.sig.(usr1 := s.sig.usr1 + 1), log := s.log + [Usr(Usr1)])
    case DisSignal(SigUsr2) => s.(sig := s.sig.(usr2 := s.sig.usr2 + 1), log := s.log + [Usr(Usr2)])
    case DisSignal(SigOther) => s.(dis := Gone(1))
  }

  function Next(c: Config, s: Sys, a: Step): Sys
    requires Enabled(c, s, a)
  {
    if IsDecoder(a) then DecNext(s, a) else DisNext(c, s, a)
  }

  // ----- what the history says -----

  // The messages the program was run on.
  function Executed(log: seq<Happening>): seq<Msg> {
    if log == [] then []
    else
      var ev := log[|log| - 1];
      var before := Executed(log[..|log| - 1]);
      if ev.Served? then before + [ev.m] else before
  }

  // What the dispatcher fed to the program, as a stream.
  function Inputs(log: seq<Happening>): seq<Input> {
    if log == [] then []
    else
      var ev := log[|log| - 1];
      var before := Inputs(log[..|log| - 1]);
      if ev.Path? then before else before + [ev.input]
  }

  // The paths received since the last poll.
  function PathsSince(log: seq<Happening>): set<string> {
    if log == [] then {}
    else
      match log[|log| - 1]
      case Path(p) => PathsSince(log[..|log| - 1]) + {p}
      case Polled(_, _) => {}
      case _ => PathsSince(log[..|log| - 1])
  }

  // Every poll saw exactly the paths received since the poll before.
  predicate PathsDelivered(log: seq<Happening>) {
    forall i | 0 <= i < |log| :: log[i].Polled? ==> log[i].seen == PathsSince(log[..i])
  }

  lemma Logged(log: seq<Happening>, ev: Happening)
    ensures Executed(log + [ev]) == if ev.Served? then Executed(log) + [ev.m] else Executed(log)
    ensures Inputs(log + [ev]) == if ev.Path? then Inputs(log) else Inputs(log) + [ev.input]
    ensures PathsSince(log + [ev]) ==
      if ev.Path? then PathsSince(log) + {ev.path} else if ev.Polled? then {} else PathsSince(log)
    ensures PathsDelivered(log) && (ev.Polled? ==> ev.seen == PathsSince(log)) ==> PathsDelivered(log + [ev])
  {
    var log' := log + [ev];
    assert log'[..|log|] == log;
    if PathsDelivered(log) && (ev.Polled? ==> ev.seen == PathsSince(log)) {
      forall i | 0 <= i < |log'| && log'[i].Polled? ensures log'[i].seen == PathsSince(log'[..i]) {
        assert log'[..i] == log[..i];
        if i < |log| { assert log'[i] == log[i]; } else { assert log[..i] == log; }
      }
    }
  }

  // ----- the protocol's invariant -----

  predicate Idle(d: Dispatcher) {
    d.Selecting? || d.Polling?
  }

  // The message on its way, if any: decoded and not yet executed.
  function OnItsWay(s: Sys): seq<Msg> {
    if s.dec.Sending? then [s.dec.m]
    else if s.dec.Waiting? && s.mc != [] && s.mc[0].Some? then [s.mc[0].value]
    else if s.dec.Waiting? && s.dis.Executing? then [s.dis.m]
    else []
  }

  predicate Agreed(s: Sys) {
    match s.dec
    case Kick => s.dis.Starting? && s.mc == [] && s.mcr == 0
    case Reading => s.mcr == 0 && QuietOrStarting(s)
    case Sending(_) => s.mcr == 0 && QuietOrStarting(s)
    case Ending => s.mcr == 0 && QuietOrStarting(s)
    case Waiting =>
      || (|s.mc| == 1 && s.mc[0].Some? && Idle(s.dis) && s.mcr == 0)
      || (s.mc == [] && (s.dis.Executing? || s.dis.Replying?) && s.mcr == 0)
      || (s.mc == [] && Idle(s.dis) && s.mcr == 1)
    case Closing => s.mc == [None] && Idle(s.dis) && s.mcr == 0
    case Left => s.mc == [None] && Idle(s.dis) && s.mcr == 0
  }

  predicate QuietOrStarting(s: Sys) {
    if s.dis.Starting? then s.mc == [None] else s.mc == [] && Idle(s.dis)
  }

  // Executed but not yet acknowledged.
  function Unanswered(s: Sys): nat {
    if s.dis.Replying? || s.mcr == 1 then 1 else 0
  }

  predicate Protocol(s: Sys) {
    && (s.closed ==> s.dec.Left?)
    && (if s.dis.Gone? then
          && Executed(s.log) <= s.decoded && |s.decoded| <= |Executed(s.log)| + 1
          && (s.dis.code == 0 ==> (s.dec.Closing? || s.dec.Left?) && Executed(s.log) == s.decoded)
        else
          && Agreed(s)
          && s.decoded == Executed(s.log) + OnItsWay(s)
          && |Executed(s.log)| == s.acked + Unanswered(s))
  }

  lemma DecKeepsProtocol(c: Config, s: Sys, a: Step)
    requires Protocol(s) && IsDecoder(a) && Enabled(c, s, a)
    ensures Protocol(Next(c, s, a))
  {
  }

  // A run changes nothing of the protocol, unless it ends the process.
  lemma ExecuteKeepsProtocol(c: Config, s: Sys, input: Input)
    requires Protocol(s) && input.Run? && (s.dis.Replying? || s.dis.Selecting?)
    ensures Protocol(Execute(c, s, input))
  {
  }

  lemma RunKeepsProtocol(c: Config, s: Sys, a: Step)
    requires Protocol(s) && a.DisRun? && Enabled(c, s, a)
    ensures Protocol(Next(c, s, a))
  {
    var ev := Served(s.dis.m, Run(a.w, s.dis.m.kind, a.time, a.uptime));
    Logged(s.log, ev);
    var s' := s.(dis := Replying, log := s.log + [ev]);
    assert Protocol(s');
    ExecuteKeepsProtocol(c, s', ev.input);
  }

  lemma PollKeepsProtocol(c: Config, s: Sys, a: Step)
    requires Protocol(s) && a.DisPollRun? && Enabled(c, s, a)
    ensures Protocol(Next(c, s, a))
  {
    var ev := Polled(s.paths, Run(a.w, POLL_KIND, a.time, a.uptime));
    Logged(s.log, ev);
    var s' := s.(dis := Selecting, paths := {}, log := s.log + [ev]);
    assert Protocol(s');
    ExecuteKeepsProtocol(c, s', ev.input);
  }

  lemma TakeKeepsProtocol(c: Config, s: Sys, a: Step)
    requires Protocol(s) && (a.DisKick? || a.DisTake?) && Enabled(c, s, a)
    ensures Protocol(Next(c, s, a))
  {
  }

  // Noting a path or a signal changes nothing of the protocol.
  lemma NoteKeepsProtocol(s: Sys, s': Sys, ev: Happening)
    requires Protocol(s) && s.dis.Selecting? && !ev.Served?
    requires s' == s.(paths := s'.paths, sig := s'.sig, log := s.log + [ev])
    ensures Protocol(s')
  {
    Logged(s.log, ev);
  }

  lemma PathKeepsProtocol(c: Config, s: Sys, a: Step)
    requires Protocol(s) && (a.DisPath? || a.DisPoll? || a.DisReply?) && Enabled(c, s, a)
    ensures Protocol(Next(c, s, a))
  {
    if a.DisPath? { NoteKeepsProtocol(s, Next(c, s, a), Path(a.path)); }
  }

  lemma SignalKeepsProtocol(c: Config, s: Sys, a: Step)
    requires Protocol(s) && a.DisSignal? && Enabled(c, s, a)
    ensures Protocol(Next(c, s, a))
  {
    match a.signal
    case SigUsr1 => NoteKeepsProtocol(s, Next(c, s, a), Usr(Usr1));
    case SigUsr2 => NoteKeepsProtocol(s, Next(c, s, a), Usr(Usr2));
    case SigOther =>
  }

  lemma StepKeepsProtocol(c: Config, s: Sys, a: Step)
    requires Protocol(s) && Enabled(c, s, a)
    ensures Protocol(Next(c, s, a))
  {
    if IsDecoder(a) {
      DecKeepsProtocol(c, s, a);
    } else {
      match a
      case DisRun(_, _, _) => RunKeepsProtocol(c, s, a);
      case DisPollRun(_, _, _) => PollKeepsProtocol(c, s, a);
      case DisSignal(_) => SignalKeepsProtocol(c, s, a);
      case DisKick => TakeKeepsProtocol(c, s, a);
      case DisTake => TakeKeepsProtocol(c, s, a);
      case _ => PathKeepsProtocol(c, s, a);
    }
  }

  // ----- the history is a run of the program -----

  // What the dispatcher did is one uninterrupted run of the program over what
  // it received, in the order received; it is gone with code 2 exactly when
  // that run stops.
  predicate Faithful(c: Config, s: Sys) {
    var r := RunStream(c.prog, Inputs(s.log), c.st, c.sig);
    if s.dis == Gone(2) then !r.Done? else r == Done(s.st, s.sig)
  }

  predicate Delivered(s: Sys) {
    PathsDelivered(s.log) && (s.dis != Gone(2) ==> s.paths == PathsSince(s.log))
  }

  lemma {:induction false} StreamAppend(p: Prog, inputs: seq<Input>, x: Input, st: St, sig: Sig)
    ensures
      var r := RunStream(p, inputs, st, sig);
      RunStream(p, inputs + [x], st, sig) == if r.Done? then RunStream(p, [x], r.st, r.sig) else r
    decreases inputs
  {
    if inputs == [] {
      assert inputs + [x] == [x];
    } else {
      assert (inputs + [x])[0] == inputs[0] && (inputs + [x])[1..] == inputs[1..] + [x];
      match inputs[0]
      case Usr1 => StreamAppend(p, inputs[1..], x, st, sig.(usr1 := sig.usr1 + 1));
      case Usr2 => StreamAppend(p, inputs[1..], x, st, sig.(usr2 := sig.usr2 + 1));
      case Run(w, kind, t, u) =>
        var r := RunSections(w, p.sections, kind, SetPredef(st, t, u), sig);
        if r.Done? { StreamAppend(p, inputs[1..], x, r.st, r.sig); }
    }
  }

  // Running the program on one more input.
  lemma ExecuteFaithful(c: Config, s: Sys, log: seq<Happening>, input: Input)
    requires RunStream(c.prog, Inputs(log), c.st, c.sig) == Done(s.st, s.sig) && !s.dis.Gone?
    requires input.Run? && Inputs(s.log) == Inputs(log) + [input]
    ensures Faithful(c, Execute(c, s, input))
  {
    StreamAppend(c.prog, Inputs(log), input, c.st, c.sig);
    assert [input][1..] == [];
  }

  lemma RunFaithful(c: Config, s: Sys, a: Step)
    requires Faithful(c, s) && (a.DisRun? || a.DisPollRun?) && Enabled(c, s, a)
    ensures Faithful(c, Next(c, s, a))
  {
    if a.DisRun? {
      var ev := Served(s.dis.m, Run(a.w, s.dis.m.kind, a.time, a.uptime));
      Logged(s.log, ev);
      ExecuteFaithful(c, s.(dis := Replying, log := s.log + [ev]), s.log, ev.input);
    } else {
      var ev := Polled(s.paths, Run(a.w, POLL_KIND, a.time, a.uptime));
      Logged(s.log, ev);
      ExecuteFaithful(c, s.(dis := Selecting, paths := {}, log := s.log + [ev]), s.log, ev.input);
    }
  }

  lemma StepFaithful(c: Config, s: Sys, a: Step)
    requires Faithful(c, s) && Enabled(c, s, a)
    ensures Faithful(c, Next(c, s, a))
  {
    match a
    case DisRun(_, _, _) => RunFaithful(c, s, a);
    case DisPollRun(_, _, _) => RunFaithful(c, s, a);
    case DisSignal(_) => SignalFaithful(c, s, a);
    case DisPath(p) => Logged(s.log, Path(p));
    case _ =>
  }

  lemma SignalFaithful(c: Config, s: Sys, a: Step)
    requires Faithful(c, s) && a.DisSignal? && Enabled(c, s, a)
    ensures Faithful(c, Next(c, s, a))
  {
    if a.signal != SigOther {
      var x := if a.signal == SigUsr1 then Usr1 else Usr2;
      Logged(s.log, Usr(x));
      StreamAppend(c.prog, Inputs(s.log), x, c.st, c.sig);
      assert [x][1..] == [];
    }
  }

  lemma RunDelivered(c: Config, s: Sys, a: Step)
    requires Delivered(s) && (a.DisRun? || a.DisPollRun?) && Enabled(c, s, a)
    ensures Delivered(Next(c, s, a))
  {
    if a.DisRun? {
      Logged(s.log, Served(s.dis.m, Run(a.w, s.dis.m.kind, a.time, a.uptime)));
    } else {
      Logged(s.log, Polled(s.paths, Run(a.w, POLL_KIND, a.time, a.uptime)));
    }
  }

  lemma StepDelivered(c: Config, s: Sys, a: Step)
    requires Delivered(s) && Enabled(c, s, a)
    ensures Delivered(Next(c, s, a))
  {
    if a.DisRun? || a.DisPollRun? {
      RunDelivered(c, s, a);
    } else if a.DisPath? {
      Logged(s.log, Path(a.path));
    } else if a.DisSignal? {
      Logged(s.log, Usr(if a.signal == SigUsr1 then Usr1 else Usr2));
    }
  }

  // ----- whole runs -----

  // The state after some steps, each of them enabled; None otherwise.
  function After(c: Config, s: Sys, steps: seq<Step>): Option<Sys>
    decreases steps
  {
    if steps == [] then Some(s)
    else if Enabled(c, s, steps[0]) then After(c, Next(c, s, steps[0]), steps[1..])
    else None
  }

  predicate Safe(c: Config, s: Sys) {
    Protocol(s) && Faithful(c, s) && Delivered(s)
  }

  lemma {:induction false} RunSafe(c: Config, s: Sys, steps: seq<Step>)
    requires Safe(c, s) && After(c, s, steps).Some?
    ensures Safe(c, After(c, s, steps).value)
    decreases steps
  {
    if steps != [] {
      StepKeepsProtocol(c, s, steps[0]);
      StepFaithful(c, s, steps[0]);
      StepDelivered(c, s, steps[0]);
      RunSafe(c, Next(c, s, steps[0]), steps[1..]);
    }
  }

  // The messages that were decoded.
  function Decoded(steps: seq<Step>): seq<Msg> {
    if steps == [] then []
    else (if steps[0].DecRead? then [steps[0].m] else []) + Decoded(steps[1..])
  }

  lemma {:induction false} DecodedExactly(c: Config, s: Sys, steps: seq<Step>)
    requires After(c, s, steps).Some?
    ensures After(c, s, steps).value.decoded == s.decoded + Decoded(steps)
    decreases steps
  {
    if steps != [] {
      var s1 := Next(c, s, steps[0]);
      DecodedStep(c, s, steps[0]);
      DecodedExactly(c, s1, steps[1..]);
      var here := if steps[0].DecRead? then [steps[0].m] else [];
      assert (s.decoded + here) + Decoded(steps[1..]) == s.decoded + (here + Decoded(steps[1..]));
    }
  }

  lemma DecodedStep(c: Config, s: Sys, a: Step)
    requires Enabled(c, s, a)
    ensures Next(c, s, a).decoded == s.decoded + if a.DecRead? then [a.m] else []
  {
    assert s.decoded + [] == s.decoded;
  }

  predicate Over(d: Decoder) {
    d.Ending? || d.Closing? || d.Left?
  }

  // Every interleaving: the program is run on the decoded messages, in order
  // and each once, never with more than one ahead of its acknowledgement; the
  // decoder ends only when all are acknowledged, and the dispatcher takes a
  // nil for the end only when the decoder has sent its last one.
  lemma InOrder(c: Config, steps: seq<Step>)
    requires After(c, Init(c), steps).Some?
    ensures
      var s := After(c, Init(c), steps).value;
      var done := Executed(s.log);
      && done <= Decoded(steps) && |Decoded(steps)| <= |done| + 1
      && (!s.dis.Gone? ==> s.acked <= |done| && |Decoded(steps)| <= s.acked + 1)
      && (!s.dis.Gone? && Over(s.dec) ==> done == Decoded(steps) && s.acked == |done|)
      && (s.dis == Gone(0) ==> Over(s.dec) && done == Decoded(steps))
  {
    StartSafe(c);
    RunSafe(c, Init(c), steps);
    DecodedExactly(c, Init(c), steps);
    var s := After(c, Init(c), steps).value;
    assert [] + Decoded(steps) == Decoded(steps);
    assert |OnItsWay(s)| + Unanswered(s) <= 1 || s.dis.Gone?;
  }

  lemma StartSafe(c: Config)
    ensures Safe(c, Init(c))
  {
  }

  // Every interleaving: the program has been run on what the dispatcher
  // received, as one run; each poll saw the paths received since the last one.
  lemma OneRun(c: Config, steps: seq<Step>)
    requires After(c, Init(c), steps).Some?
    ensures
      var s := After(c, Init(c), steps).value;
      var r := RunStream(c.prog, Inputs(s.log), c.st, c.sig);
      && (if s.dis == Gone(2) then !r.Done? else r == Done(s.st, s.sig))
      && PathsDelivered(s.log) && (s.dis != Gone(2) ==> s.paths == PathsSince(s.log))
  {
    StartSafe(c);
    RunSafe(c, Init(c), steps);
  }

  // ----- progress -----

  // Steps of the two processes themselves; the others bring something from
  // outside.
  predicate IsOwn(a: Step) {
    !(a.DecRead? || a.DecError? || a.DisPath? || a.DisPoll? || a.DisSignal?)
  }

  // How many own steps are ahead if nothing else arrives.
  function Work(s: Sys): nat {
    if s.dis.Gone? then 0 else DecWork(s.dec) + MailWork(s.mc) + DisWork(s.dis) + s.mcr
  }

  function DecWork(d: Decoder): nat {
    match d
    case Kick => 2
    case Sending(_) => 5
    case Ending => 3
    case Closing => 1
    case _ => 0
  }

  function MailWork(mc: seq<Option<Msg>>): nat {
    if mc == [] then 0 else if mc[0].Some? then 4 else 1
  }

  function DisWork(d: Dispatcher): nat {
    match d
    case Executing(_) => 3
    case Replying => 2
    case Polling => 1
    case _ => 0
  }

  function Brings(a: Step): nat {
    if a.DecRead? then 5 else if a.DecError? then 3 else if a.DisPoll? then 1 else 0
  }

  lemma DecWorkShrinks(c: Config, s: Sys, a: Step)
    requires Protocol(s) && Enabled(c, s, a) && IsDecoder(a)
    ensures Work(Next(c, s, a)) + (if IsOwn(a) then 1 else 0) <= Work(s) + Brings(a)
  {
  }

  lemma DisWorkShrinks(c: Config, s: Sys, a: Step)
    requires Protocol(s) && Enabled(c, s, a) && !IsDecoder(a)
    ensures Work(Next(c, s, a)) + (if IsOwn(a) then 1 else 0) <= Work(s) + Brings(a)
  {
  }

  function OwnSteps(steps: seq<Step>): nat {
    if steps == [] then 0 else (if IsOwn(steps[0]) then 1 else 0) + OwnSteps(steps[1..])
  }

  function Brought(steps: seq<Step>): nat {
    if steps == [] then 0 else Brings(steps[0]) + Brought(steps[1..])
  }

  // The two processes never run on their own: five steps for a message, three
  // for the end of the input, one for a poll, and two to start.
  lemma {:induction false} BoundedWork(c: Config, s: Sys, steps: seq<Step>)
    requires Protocol(s) && After(c, s, steps).Some?
    ensures OwnSteps(steps) + Work(After(c, s, steps).value) <= Work(s) + Brought(steps)
    decreases steps
  {
    if steps != [] {
      StepKeepsProtocol(c, s, steps[0]);
      if IsDecoder(steps[0]) { DecWorkShrinks(c, s, steps[0]); } else { DisWorkShrinks(c, s, steps[0]); }
      BoundedWork(c, Next(c, s, steps[0]), steps[1..]);
    }
  }

  function AnyWorld(c: Config, msg: Option<MsgCtx>): World {
    World(c.levels, msg, (f, vs, t) => None, (t, p, args) => false, (t, from, to) => false)
  }

  lemma NextOwnStep(c: Config, s: Sys) returns (a: Step)
    requires Protocol(s) && !s.dis.Gone?
    ensures (IsOwn(a) && Enabled(c, s, a)) || AllQuiet(s)
  {
    a := DecKick;
    match s.dis
    case Starting => if s.dec.Kick? { a := DecKick; } else { a := DisKick; }
    case Executing(m) => a := DisRun(AnyWorld(c, Some(m.ctx)), 0, 0);
    case Polling => a := DisPollRun(AnyWorld(c, None), 0, 0);
    case Replying => a := DisReply;
    case Selecting =>
      if s.mc != [] { a := DisTake; }
      else if s.dec.Sending? { a := DecSend; }
      else if s.dec.Waiting? { a := DecAck; }
      else if s.dec.Ending? { a := DecEnd; }
  }

  // All that was decoded is executed and acknowledged, the decoder is ready to
  // read and the dispatcher is in its select.
  predicate AllQuiet(s: Sys) {
    s.dec.Reading? && s.dis.Selecting? && s.mc == [] && Executed(s.log) == s.decoded && s.acked == |s.decoded|
  }

  // No deadlock: after any steps from the start, as long as the dispatcher is
  // there, one of the two processes has a step of its own, or all is quiet.
  lemma Progress(c: Config, steps: seq<Step>) returns (a: Step)
    requires After(c, Init(c), steps).Some? && !After(c, Init(c), steps).value.dis.Gone?
    ensures
      var s := After(c, Init(c), steps).value;
      (IsOwn(a) && Enabled(c, s, a)) || AllQuiet(s)
  {
    RunSafe(c, Init(c), steps);
    a := NextOwnStep(c, After(c, Init(c), steps).value);
  }
}
