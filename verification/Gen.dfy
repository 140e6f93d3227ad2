// The Go code generated for a program (tree/gen.go): its labels, and exactly
// when the code of a chain does what the interpreter does.
module Gen {
  import opened Syntax
  import opened Semantics
  import opened ChainExact

  // ----- generated code -----

  // The Go statements emitted for a chain: iscomma and tokthen are flags of
  // the whole chain, and iscomma starts out true.
  function RunGenerated(w: World, acts: seq<Act>, first: bool, isComma: bool, tokThen: bool, st: St, sig: Sig): RunRes
    decreases acts
  {
    if acts == [] then Done(st, sig)
    else
      var isComma' := isComma || (!first && acts[0].con == Comma);
      var tokThen' := tokThen || (!first && acts[0].con == Then);
      match RunAct(w, acts[0].what, st, sig)
      case ActOk(ok, st', sig') =>
        if (ok && tokThen') || isComma' || (!ok && !tokThen')
        then RunGenerated(w, acts[1..], false, isComma', tokThen', st', sig')
        else Done(st', sig')
      case ActStop(t) => Stop(t)
      case ActFault(f) => Fail(f)
  }

  // The flag is never cleared, so the generated code runs every action.
  lemma {:induction false} GeneratedRunsAll(w: World, acts: seq<Act>, first: bool, tokThen: bool, st: St, sig: Sig)
    ensures RunGenerated(w, acts, first, true, tokThen, st, sig) == RunAll(w, acts, st, sig)
    decreases acts
  {
    if acts != [] {
      var tokThen' := tokThen || (!first && acts[0].con == Then);
      var r := RunAct(w, acts[0].what, st, sig);
      if r.ActOk? { GeneratedRunsAll(w, acts[1..], false, tokThen', r.st, r.sig); }
    }
  }

  // It agrees with the interpreter when interpretation gets to the end of the
  // chain; in particular when all connectors are commas.
  lemma GeneratedAgrees(w: World, acts: seq<Act>, st: St, sig: Sig)
    requires RunAll(w, acts, st, sig).Done?
    requires Ran(Cons(acts), Outcomes(w, acts, st, sig), true) == |acts|
    ensures RunGenerated(w, acts, true, true, false, st, sig) == RunChain(w, acts, true, st, sig)
  {
    GeneratedRunsAll(w, acts, true, false, st, sig);
    RunChainIsPrefix(w, acts, true, st, sig);
    assert acts[..|acts|] == acts;
  }

  lemma {:induction false} CommasRunAll(acts: seq<Act>, outs: seq<bool>, success: bool)
    requires |outs| == |acts| && forall a | a in acts :: a.con == Comma
    ensures Ran(Cons(acts), outs, success) == |acts|
    decreases acts
  {
    if acts != [] {
      assert acts[0] in acts && Cons(acts)[1..] == Cons(acts[1..]);
      CommasRunAll(acts[1..], outs[1..], outs[0]);
    }
  }

  // The number of visible actions tells the two apart: when each action adds
  // an event, they agree only if interpretation gets to the end.
  lemma GeneratedExact(w: World, acts: seq<Act>, st: St, sig: Sig)
    requires RunAll(w, acts, st, sig).Done?
    requires forall a | a in acts :: Visible(a.what)
    ensures RunGenerated(w, acts, true, true, false, st, sig) == RunChain(w, acts, true, st, sig)
       <==> Ran(Cons(acts), Outcomes(w, acts, st, sig), true) == |acts|
  {
    GeneratedRunsAll(w, acts, true, false, st, sig);
    RunChainIsPrefix(w, acts, true, st, sig);
    var n := Ran(Cons(acts), Outcomes(w, acts, st, sig), true);
    if n == |acts| {
      GeneratedAgrees(w, acts, st, sig);
    } else {
      EventsCount(w, acts, st, sig, |acts|);
      EventsCount(w, acts, st, sig, n);
      assert acts[..|acts|] == acts;
    }
  }

  // Actions that leave exactly one event.
  predicate Visible(e: Expr) {
    e.Call? && e.fn in {FAlert, FExec, FTrue, FFalse}
  }

  lemma OneEvent(w: World, e: Expr, st: St, sig: Sig)
    requires Visible(e) && !RunAct(w, e, st, sig).ActFault?
    ensures var r := RunAct(w, e, st, sig); r.ActOk? && |r.st.trace| == |st.trace| + 1
  {
  }

  lemma {:induction false} EventsCount(w: World, acts: seq<Act>, st: St, sig: Sig, n: nat)
    requires RunAll(w, acts, st, sig).Done? && n <= |acts|
    requires forall a | a in acts :: Visible(a.what)
    ensures var r := RunAll(w, acts[..n], st, sig); r.Done? && |r.st.trace| == |st.trace| + n
    decreases acts
  {
    if n > 0 {
      assert acts[0] in acts;
      OneEvent(w, acts[0].what, st, sig);
      var r := RunAct(w, acts[0].what, st, sig);
      assert acts[..n][0] == acts[0] && acts[..n][1..] == acts[1..][..n - 1];
      EventsCount(w, acts[1..], r.st, r.sig, n - 1);
    } else {
      assert acts[..0] == [];
    }
  }

  // ----- labels of the generated code -----

  datatype Label = DoneSect(i: nat) | DoneRule(i: nat)

  datatype Emitted = Emitted(labels: seq<Label>, next: nat)

  // The labels of one section that starts at number i, and the number
  // returned: one more than the number after its last rule.
  method GenSection(rules: nat, i: nat) returns (e: Emitted)
    ensures e == SectionLabels(rules, i)
  {
    var labels, j, r := [DoneSect(i)], i + 1, 0;
    while r < rules
      invariant 0 <= r <= rules && j == i + 1 + r
      invariant labels == [DoneSect(i)] + RuleLabels(r, i + 1)
    {
      labels := labels + [DoneRule(j)];
      j, r := j + 1, r + 1;
    }
    e := Emitted(labels, j + 1);
  }

  function RuleLabels(rules: nat, i: nat): (ls: seq<Label>)
    ensures |ls| == rules && forall k | 0 <= k < rules :: ls[k] == DoneRule(i + k)
  {
    if rules == 0 then [] else RuleLabels(rules - 1, i) + [DoneRule(i + rules - 1)]
  }

  function SectionLabels(rules: nat, i: nat): Emitted {
    Emitted([DoneSect(i)] + RuleLabels(rules, i + 1), i + rules + 2)
  }

  // The program adds the number a section returns to its own counter.
  function ProgLabels(sections: seq<nat>, i: nat): seq<Label>
    decreases sections
  {
    if sections == [] then []
    else
      var e := SectionLabels(sections[0], i);
      e.labels + ProgLabels(sections[1..], i + e.next + 1)
  }

  method GenProg(sections: seq<nat>) returns (labels: seq<Label>)
    ensures labels == ProgLabels(sections, 0)
  {
    labels := [];
    var i: nat, s: nat := 0, 0;
    while s < |sections|
      invariant 0 <= s <= |sections|
      invariant labels + ProgLabels(sections[s..], i) == ProgLabels(sections, 0)
    {
      var e := GenSection(sections[s], i);
      assert sections[s..][0] == sections[s] && sections[s..][1..] == sections[s + 1..];
      labels := labels + e.labels;
      i, s := i + e.next + 1, s + 1;
    }
    assert sections[s..] == [];
  }

  function Number(l: Label): nat {
    l.i
  }

  // No label is emitted twice, and no two share a number.
  lemma {:induction false} LabelsDistinct(sections: seq<nat>, i: nat)
    ensures forall j | 0 <= j < |ProgLabels(sections, i)| :: Number(ProgLabels(sections, i)[j]) >= i
    ensures forall j, k | 0 <= j < k < |ProgLabels(sections, i)| ::
      Number(ProgLabels(sections, i)[j]) < Number(ProgLabels(sections, i)[k])
    decreases sections
  {
    if sections != [] {
      var e := SectionLabels(sections[0], i);
      LabelsDistinct(sections[1..], i + e.next + 1);
      assert forall j | 0 <= j < |e.labels| :: Number(e.labels[j]) == i + j;
    }
  }
}
