// Two runs that differ in the value of one variable from some action of a
// chain on: what tells them apart.
module Telling {
  import opened Types
  import opened Int64
  import opened Syntax
  import opened Semantics
  import opened TypeCheck
  import opened Soundness
  import opened Chain
  import opened ChainExact
  import opened Conditions
  import opened Scripted
  import opened CleanExact

  // ----- the chains -----

  predicate OthersLoud(acts: seq<Act>, i: nat, j: nat, g: Scope) {
    forall k | 0 <= k < |acts| && k != i && k != j :: Loud(acts[k].what, g)
  }

  lemma LoudParts(acts: seq<Act>, i: nat, j: nat, g: Scope)
    requires i < j < |acts| && OthersLoud(acts, i, j, g)
    ensures AllLoud(acts[..i], g) && AllLoud(acts[i + 1..j], g) && AllLoud(acts[j + 1..], g)
  {
  }

  lemma LoudUpTo(acts: seq<Act>, i: nat, j: nat, n: nat, g: Scope)
    requires i < j < |acts| && OthersLoud(acts, i, j, g)
    ensures i < n <= j ==> AllLoud(acts[i + 1..n], g)
    ensures j < n <= |acts| ==> AllLoud(acts[j + 1..n], g)
  {
  }

  function Replaced(acts: seq<Act>, i: nat): (r: seq<Act>)
    requires i < |acts|
    ensures |r| == |acts|
  {
    acts[i := acts[i].(what := TRUE)]
  }

  predicate Reachable(acts: seq<Act>, i: nat)
    requires i < |acts|
  {
    exists ok | ok in Arrivals(acts, i) :: Taken(acts[i].con, ok)
  }

  // ----- the outcomes that give it away -----

  // The chain gets past the set at i, and to the set at j only if it always
  // does.
  lemma TellingOutcomes(acts: seq<Act>, i: nat, j: nat) returns (outs: seq<bool>)
    requires i < j < |acts| && Sure(acts[i].what) && Reachable(acts, i)
    ensures Respects(SureOf(acts), outs) && i < Ran(Cons(acts), outs, true)
    ensures j < Ran(Cons(acts), outs, true) <==> forall k | i < k <= j :: Smooth(acts, k)
  {
    if m :| i < m <= j && !Smooth(acts, m) {
      outs := StopsBetween(acts, i, m);
    } else {
      outs := GetsPast(acts, i, j);
    }
  }

  // Outcomes that go on from others, and all succeed but for the one before m.
  lemma Interrupted(acts: seq<Act>, o: seq<bool>, i: nat, m: nat) returns (outs: seq<bool>)
    requires i < m < |acts| && !Smooth(acts, m) && Respects(SureOf(acts[..i]), o)
    ensures Respects(SureOf(acts), outs) && o <= outs && !Taken(acts[m].con, outs[m - 1])
  {
    outs := o + seq(|acts| - i, k => !(i + k == m - 1 && acts[m].con == Then));
    forall k | 0 <= k < |acts| && SureOf(acts)[k] ensures outs[k] {
      if k < i { assert SureOf(acts[..i])[k]; }
    }
  }

  // The chain gets past the set at i, but not to the set at j.
  lemma StopsBetween(acts: seq<Act>, i: nat, m: nat) returns (outs: seq<bool>)
    requires i < m < |acts| && Sure(acts[i].what) && Reachable(acts, i) && !Smooth(acts, m)
    ensures Respects(SureOf(acts), outs) && i < Ran(Cons(acts), outs, true) <= m
  {
    var ok :| ok in Arrivals(acts, i) && Taken(acts[i].con, ok);
    var cons, sure := Cons(acts), SureOf(acts);
    ConsUpTo(acts, i);
    var start, o := EndsPossible(cons[..i], sure[..i], {true}, ok);
    outs := Interrupted(acts, o, i, m);
    PrefixReaches(cons, outs, o, i, ok);
    RanReaches(cons, outs, true, m + 1);
    assert !Taken(cons[m], Before(outs, true, m));
  }

  // The first i + 1 actions run if the first i do and the next connector is taken.
  lemma PrefixReaches(cons: seq<Con>, outs: seq<bool>, o: seq<bool>, i: nat, ok: bool)
    requires i < |cons| == |outs| && |o| == i && o <= outs && Taken(cons[i], ok)
    requires Ran(cons[..i], o, true) == i && Last(o, true) == ok
    ensures forall m | 0 <= m <= i :: Taken(cons[m], Before(outs, true, m))
    ensures i < Ran(cons, outs, true)
  {
    RanReaches(cons[..i], o, true, i);
    forall m | 0 <= m <= i ensures Taken(cons[m], Before(outs, true, m)) {
      if m < i { assert cons[m] == cons[..i][m] && Before(outs, true, m) == Before(o, true, m); }
    }
    RanReaches(cons, outs, true, i + 1);
  }

  // The chain gets past action m after the set at i.
  lemma GetsPast(acts: seq<Act>, i: nat, m: nat) returns (outs: seq<bool>)
    requires i < m < |acts| && Reachable(acts, i) && forall k | i < k <= m :: Smooth(acts, k)
    ensures Respects(SureOf(acts), outs) && m < Ran(Cons(acts), outs, true)
  {
    var ok :| ok in Arrivals(acts, i) && Taken(acts[i].con, ok);
    var cons, sure := Cons(acts), SureOf(acts);
    ConsUpTo(acts, i);
    var start, o := EndsPossible(cons[..i], sure[..i], {true}, ok);
    outs := o + seq(|acts| - i, k => true);
    PrefixReaches(cons, outs, o, i, ok);
    forall k | 0 <= k < m + 1 ensures Taken(cons[k], Before(outs, true, k)) {
      if k > i { assert Smooth(acts, k); }
    }
    RanReaches(cons, outs, true, m + 1);
  }

  // ----- what the earlier set leaves -----

  // An earlier set of a literal, and a later set of the same variable, among
  // actions that can be seen.
  predicate TwoPlain(acts: seq<Act>, i: nat, j: nat, g: Scope) {
    && i < j < |acts| && PlainSet(acts[i].what, g) && acts[i].what.args[1].Const? && PlainSet(acts[j].what, g)
    && SameTarget(acts[i].what, acts[j].what) && OthersLoud(acts, i, j, g)
  }

  // A store in which that literal is news.
  predicate News(acts: seq<Act>, i: nat, st: St, g: Scope)
    requires i < |acts| && PlainSet(acts[i].what, g)
  {
    StoreTyped(st, g) && st.vars[Target(acts[i].what)] != Val(acts[i].what.args[1], st)
  }

  // The state before action n, when the chain has got past the set at i.
  lemma BetweenSets(acts: seq<Act>, i: nat, n: nat, st: St, g: Scope)
    requires i < n <= |acts| && PlainSet(acts[i].what, g)
    requires AllLoud(acts[..i], g) && AllLoud(acts[i + 1..n], g)
    ensures
      var s, s' := EffectAll(acts[..n], st), EffectAll(Replaced(acts, i)[..n], st);
      && s.vars == st.vars[Target(acts[i].what) := Val(acts[i].what.args[1], st)] && s'.vars == st.vars
      && |s.trace| == |s'.trace|
  {
    AroundSet(acts[..i], acts[i], acts[i + 1..n], st, g);
    AroundSet(acts[..i], acts[i].(what := TRUE), acts[i + 1..n], st, g);
    assert acts[..n] == acts[..i] + ([acts[i]] + acts[i + 1..n]);
    assert Replaced(acts, i)[..n] == acts[..i] + ([acts[i].(what := TRUE)] + acts[i + 1..n]);
    LoudEffect(acts[..i], st, g);
    PlainVal(acts[i].what.args[1], EffectAll(acts[..i], st), st);
  }

  lemma PlainVal(e: Expr, st1: St, st2: St)
    requires st1.vars == st2.vars
    ensures Val(e, st1) == Val(e, st2)
  {
  }

  lemma AroundSet(before: seq<Act>, a: Act, after: seq<Act>, st: St, g: Scope)
    requires AllLoud(before, g) && AllLoud(after, g) && (PlainSet(a.what, g) || a.what == TRUE)
    ensures
      var s := EffectAll(before + ([a] + after), st);
      && s.vars == Effect(a.what, EffectAll(before, st)).vars && |s.trace| == |st.trace| + |before| + |after|
  {
    EffectConcat(before, [a] + after, st);
    assert ([a] + after)[1..] == after;
    LoudEffect(before, st, g);
    LoudEffect(after, Effect(a.what, EffectAll(before, st)), g);
  }

  // A run that ends between the sets leaves another value.
  lemma StopDiffers(acts: seq<Act>, i: nat, j: nat, n: nat, st: St, g: Scope)
    requires TwoPlain(acts, i, j, g) && i < n <= j && News(acts, i, st, g)
    ensures EffectAll(acts[..n], st).vars != EffectAll(Replaced(acts, i)[..n], st).vars
  {
    LoudParts(acts, i, j, g);
    LoudUpTo(acts, i, j, n, g);
    BetweenSets(acts, i, n, st, g);
    var v := Target(acts[i].what);
    assert EffectAll(acts[..n], st).vars[v] != EffectAll(Replaced(acts, i)[..n], st).vars[v];
  }

  // ----- an action between the sets reads the variable -----

  lemma {:induction false} StrFieldsAt(vs: seq<Value>, k: nat)
    requires k < |vs|
    ensures StrFields(vs)[k] == StrField(vs[k])
  {
    if k > 0 { StrFieldsAt(vs[1..], k - 1); }
  }

  lemma {:induction false} ReadsAt(es: seq<Expr>, v: string) returns (k: nat)
    requires v in ReadsAll(es)
    ensures k < |es| && v in Reads(es[k])
  {
    if v in Reads(es[0]) {
      k := 0;
    } else {
      k := ReadsAt(es[1..], v);
      k := k + 1;
    }
  }

  // An action that can be seen tells two values of a variable it reads apart.
  lemma EventTells(e: Expr, s1: St, s2: St, v: string, g: Scope)
    requires Loud(e, g) && v in Reads(e) && StoreTyped(s1, g) && StoreTyped(s2, g)
    requires v in s1.vars && v in s2.vars && s1.vars[v] != s2.vars[v]
    ensures EventOf(e, s1) != EventOf(e, s2)
  {
    var k := ReadsAt(e.args, v);
    assert e.args[k] in e.args;
    var v1, v2 := Vals(e.args, s1), Vals(e.args, s2);
    assert v1[k] == s1.vars[v] && v2[k] == s2.vars[v];
    if e.fn == FExec && k > 0 {
      StrFieldsAt(v1[1..], k - 1);
      StrFieldsAt(v2[1..], k - 1);
    }
  }

  lemma {:induction false} TraceGrows(acts: seq<Act>, st: St)
    ensures st.trace <= EffectAll(acts, st).trace
    decreases acts
  {
    if acts != [] { TraceGrows(acts[1..], Effect(acts[0].what, st)); }
  }

  // The event of action m stays where it is, however far the run gets.
  lemma EventStays(acts: seq<Act>, m: nat, n: nat, st: St)
    requires m < n <= |acts| && Noisy(acts[m].what)
    ensures
      var s := EffectAll(acts[..m], st);
      var end := EffectAll(acts[..n], st).trace;
      |s.trace| < |end| && end[|s.trace|] == EventOf(acts[m].what, s)
  {
    assert acts[..n] == acts[..m] + acts[m..n];
    EffectConcat(acts[..m], acts[m..n], st);
    var s := EffectAll(acts[..m], st);
    var s' := Effect(acts[m].what, s);
    assert acts[m..n][1..] == acts[m + 1..n] && acts[m..n][0] == acts[m];
    TraceGrows(acts[m + 1..n], s');
    assert s'.trace[|s.trace|] == EventOf(acts[m].what, s);
  }

  lemma ReadDiffers(acts: seq<Act>, i: nat, j: nat, m: nat, n: nat, st: St, g: Scope)
    requires TwoPlain(acts, i, j, g) && i < m < j && m < n <= |acts| && News(acts, i, st, g)
    requires Target(acts[i].what) in ActReads(acts[m].what)
    ensures EffectAll(acts[..n], st).trace != EffectAll(Replaced(acts, i)[..n], st).trace
  {
    LoudParts(acts, i, j, g);
    LoudUpTo(acts, i, j, m, g);
    BetweenSets(acts, i, m, st, g);
    var s, s' := EffectAll(acts[..m], st), EffectAll(Replaced(acts, i)[..m], st);
    assert Loud(acts[m].what, g);
    EventTells(acts[m].what, s, s', Target(acts[i].what), g);
    EventStays(acts, m, n, st);
    EventStays(Replaced(acts, i), m, n, st);
  }

  // ----- the later set reads the variable -----

  lemma WrapTells(x: int, y: int)
    requires Wrap(x) == Wrap(y) && -TWO64 < x - y < TWO64
    ensures x == y
  {
  }

  // Adding a literal keeps two integers apart, and moves one.
  lemma ShiftTells(op: Op, a: int64, b: int64, n: int64)
    requires op in {OpAdd, OpSub}
    ensures a != b ==> IntOp(a, n, op).v != IntOp(b, n, op).v
    ensures n != 0 ==> IntOp(a, n, op).v != IntV(a)
  {
    if op == OpAdd {
      if Wrap(a + n) == Wrap(b + n) { WrapTells(a + n, b + n); }
      if Wrap(a + n) == Wrap(a) { WrapTells(a + n, a); }
    } else {
      if Wrap(a - n) == Wrap(b - n) { WrapTells(a - n, b - n); }
      if Wrap(a - n) == Wrap(a) { WrapTells(a - n, a); }
    }
  }

  lemma LaterTells(e: Expr, s1: St, s2: St, g: Scope)
    requires PlainSet(e, g) && Target(e) in ActReads(e) && StoreTyped(s1, g) && StoreTyped(s2, g)
    requires s1.vars[Target(e)] != s2.vars[Target(e)]
    ensures Effect(e, s1).vars != Effect(e, s2).vars
  {
    var v, r := Target(e), e.args[1];
    if r.Bin? {
      assert Reads(r) == Reads(r.left) + Reads(r.right) == {r.left.name};
      assert Val(r.left, s1) == s1.vars[v] && Val(r.left, s2) == s2.vars[v] && Val(r.right, s1) == Val(r.right, s2);
      ShiftTells(r.op, s1.vars[v].i, s2.vars[v].i, r.right.v.i);
    }
    assert Val(r, s1) != Val(r, s2);
    assert Effect(e, s1).vars[v] == Val(r, s1) && Effect(e, s2).vars[v] == Val(r, s2);
  }

  lemma AfterLater(acts: seq<Act>, j: nat, n: nat, st: St, g: Scope)
    requires j < n <= |acts| && AllLoud(acts[j + 1..n], g)
    ensures EffectAll(acts[..n], st).vars == Effect(acts[j].what, EffectAll(acts[..j], st)).vars
  {
    assert acts[..n] == acts[..j] + ([acts[j]] + acts[j + 1..n]);
    EffectConcat(acts[..j], [acts[j]] + acts[j + 1..n], st);
    assert ([acts[j]] + acts[j + 1..n])[1..] == acts[j + 1..n];
    LoudEffect(acts[j + 1..n], Effect(acts[j].what, EffectAll(acts[..j], st)), g);
  }

  lemma LaterDiffers(acts: seq<Act>, i: nat, j: nat, n: nat, st: St, g: Scope)
    requires TwoPlain(acts, i, j, g) && j < n <= |acts| && News(acts, i, st, g)
    requires Target(acts[j].what) in ActReads(acts[j].what)
    ensures EffectAll(acts[..n], st).vars != EffectAll(Replaced(acts, i)[..n], st).vars
  {
    LoudParts(acts, i, j, g);
    LoudUpTo(acts, i, j, n, g);
    BetweenSets(acts, i, j, st, g);
    var less := Replaced(acts, i);
    assert less[j + 1..n] == acts[j + 1..n] && less[j] == acts[j];
    AfterLater(acts, j, n, st, g);
    AfterLater(less, j, n, st, g);
    LaterTells(acts[j].what, EffectAll(acts[..j], st), EffectAll(less[..j], st), g);
  }

  // One of the three always applies when the condition does not hold.
  lemma Differs(acts: seq<Act>, i: nat, j: nat, outs: seq<bool>, st: St, g: Scope)
    requires TwoPlain(acts, i, j, g) && News(acts, i, st, g) && |outs| == |acts|
    requires i < Ran(Cons(acts), outs, true)
    requires j < Ran(Cons(acts), outs, true) ==>
      exists m | i < m <= j :: Target(acts[i].what) in ActReads(acts[m].what)
    ensures
      var n := Ran(Cons(acts), outs, true);
      EffectAll(acts[..n], st) != EffectAll(Replaced(acts, i)[..n], st)
  {
    var n := Ran(Cons(acts), outs, true);
    if n <= j {
      StopDiffers(acts, i, j, n, st, g);
    } else {
      var m :| i < m <= j && Target(acts[i].what) in ActReads(acts[m].what);
      if m < j { ReadDiffers(acts, i, j, m, n, st, g); } else { LaterDiffers(acts, i, j, n, st, g); }
    }
  }
}
