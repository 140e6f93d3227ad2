// Exactly when the cleanup of a chain may take a constant action out of it
// (tree/const.go), for every outcome of the other actions.
module ChainExact {
  import opened Syntax
  import opened Semantics
  import opened Chain

  // A run of a chain seen from its connectors and the outcomes of its actions
  // only: a chain always runs a prefix of its actions, and this is its length.
  function Ran(cons: seq<Con>, outs: seq<bool>, success: bool): (n: nat)
    requires |cons| == |outs|
    ensures n <= |cons|
  {
    if cons == [] || !Taken(cons[0], success) then 0
    else 1 + Ran(cons[1..], outs[1..], outs[0])
  }

  function Last(outs: seq<bool>, success: bool): bool {
    if outs == [] then success else outs[|outs| - 1]
  }

  lemma {:induction false} RanConcat(a: seq<Con>, oa: seq<bool>, b: seq<Con>, ob: seq<bool>, success: bool)
    requires |a| == |oa| && |b| == |ob|
    ensures Ran(a + b, oa + ob, success) ==
      if Ran(a, oa, success) < |a| then Ran(a, oa, success) else |a| + Ran(b, ob, Last(oa, success))
  {
    if a == [] {
      assert a + b == b && oa + ob == ob;
    } else {
      assert (a + b)[1..] == a[1..] + b && (oa + ob)[1..] == oa[1..] + ob;
      RanConcat(a[1..], oa[1..], b, ob, oa[0]);
    }
  }

  // The outcome that decides the connector before action m.
  function Before(outs: seq<bool>, success: bool, m: nat): bool
    requires m <= |outs|
  {
    if m == 0 then success else outs[m - 1]
  }

  lemma {:induction false} RanReaches(cons: seq<Con>, outs: seq<bool>, success: bool, n: nat)
    requires n <= |cons| == |outs|
    ensures n <= Ran(cons, outs, success) <==> forall m | 0 <= m < n :: Taken(cons[m], Before(outs, success, m))
  {
    if n > 0 && Taken(cons[0], success) {
      RanReaches(cons[1..], outs[1..], outs[0], n - 1);
      forall m | 0 <= m < n - 1
        ensures Taken(cons[1..][m], Before(outs[1..], outs[0], m)) <==> Taken(cons[m + 1], Before(outs, success, m + 1))
      {
      }
      assert forall m | 0 < m < n :: cons[m] == cons[1..][m - 1] && outs[m - 1] == Before(outs, success, m);
    } else if n > 0 {
      assert !Taken(cons[0], Before(outs, success, 0));
    }
  }

  // ----- the link with the interpreter -----

  function Cons(acts: seq<Act>): (r: seq<Con>)
    ensures |r| == |acts|
  {
    seq(|acts|, i requires 0 <= i < |acts| => acts[i].con)
  }

  // Which actions always succeed.
  function SureOf(acts: seq<Act>): (r: seq<bool>)
    ensures |r| == |acts|
  {
    seq(|acts|, i requires 0 <= i < |acts| => Sure(acts[i].what))
  }

  // Every action run in turn, whatever the connectors say.
  function RunAll(w: World, acts: seq<Act>, st: St, sig: Sig): RunRes
    decreases acts
  {
    if acts == [] then Done(st, sig)
    else match RunAct(w, acts[0].what, st, sig)
      case ActOk(_, st', sig') => RunAll(w, acts[1..], st', sig')
      case ActStop(t) => Stop(t)
      case ActFault(f) => Fail(f)
  }

  // The outcomes of the actions when all of them are run in turn.
  function Outcomes(w: World, acts: seq<Act>, st: St, sig: Sig): (r: seq<bool>)
    ensures |r| == |acts|
    decreases acts
  {
    if acts == [] then []
    else match RunAct(w, acts[0].what, st, sig)
      case ActOk(ok, st', sig') => [ok] + Outcomes(w, acts[1..], st', sig')
      case _ => seq(|acts|, i => false)
  }

  lemma {:induction false} RunChainIsPrefix(w: World, acts: seq<Act>, success: bool, st: St, sig: Sig)
    requires RunAll(w, acts, st, sig).Done?
    ensures RunChain(w, acts, success, st, sig)
         == RunAll(w, acts[..Ran(Cons(acts), Outcomes(w, acts, st, sig), success)], st, sig)
    decreases acts
  {
    if acts != [] && Taken(acts[0].con, success) {
      var r := RunAct(w, acts[0].what, st, sig);
      var outs := Outcomes(w, acts, st, sig);
      var n := Ran(Cons(acts), outs, success);
      assert outs[1..] == Outcomes(w, acts[1..], r.st, r.sig) && Cons(acts)[1..] == Cons(acts[1..]);
      assert acts[..n][0] == acts[0] && acts[..n][1..] == acts[1..][..n - 1];
      RunChainIsPrefix(w, acts[1..], r.success, r.st, r.sig);
    }
  }

  // ----- removing a constant action, exactly -----

  // Some actions are known to succeed always; of the others nothing is known.
  predicate Respects(sure: seq<bool>, outs: seq<bool>) {
    |outs| == |sure| && forall i | 0 <= i < |sure| && sure[i] :: outs[i]
  }

  // The outcomes the last action can have when all of a chain is run.
  function Ends(cons: seq<Con>, sure: seq<bool>, oks: set<bool>): set<bool>
    requires |cons| == |sure|
    decreases cons
  {
    if cons == [] then oks
    else if exists ok | ok in oks :: Taken(cons[0], ok) then
      Ends(cons[1..], sure[1..], if sure[0] then {true} else {true, false})
    else {}
  }

  lemma {:induction false} EndsComplete(cons: seq<Con>, sure: seq<bool>, oks: set<bool>, outs: seq<bool>, ok: bool)
    requires |cons| == |sure| && Respects(sure, outs) && ok in oks && Ran(cons, outs, ok) == |cons|
    ensures Last(outs, ok) in Ends(cons, sure, oks)
    decreases cons
  {
    if cons != [] {
      assert Last(outs[1..], outs[0]) == Last(outs, ok);
      EndsComplete(cons[1..], sure[1..], if sure[0] then {true} else {true, false}, outs[1..], outs[0]);
    }
  }

  lemma {:induction false} EndsPossible(cons: seq<Con>, sure: seq<bool>, oks: set<bool>, b: bool)
    returns (ok: bool, outs: seq<bool>)
    requires |cons| == |sure| && b in Ends(cons, sure, oks)
    ensures ok in oks && Respects(sure, outs) && Ran(cons, outs, ok) == |cons| && Last(outs, ok) == b
    decreases cons
  {
    if cons == [] {
      ok, outs := b, [];
    } else {
      ok :| ok in oks && Taken(cons[0], ok);
      var h, t := EndsPossible(cons[1..], sure[1..], if sure[0] then {true} else {true, false}, b);
      outs := [h] + t;
      assert outs[1..] == t;
      if t != [] { assert Last(outs, ok) == Last(t, h); }
    }
  }

  // The actions run, other than the one at p.
  function Others(n: nat, p: nat): nat {
    if n <= p then n else n - 1
  }

  predicate SameRun(cons: seq<Con>, outs: seq<bool>, p: nat)
    requires p < |cons| == |outs|
  {
    Others(Ran(cons, outs, true), p) == Ran(Without(cons, p), Without(outs, p), true)
  }

  lemma RanAround(cons: seq<Con>, outs: seq<bool>, p: nat)
    requires p < |cons| == |outs|
    ensures
      var before := Ran(cons[..p], outs[..p], true);
      var last := Last(outs[..p], true);
      && Ran(cons, outs, true) == (if before < p then before else p + Ran(cons[p..], outs[p..], last))
      && Ran(Without(cons, p), Without(outs, p), true)
           == (if before < p then before else p + Ran(cons[p + 1..], outs[p + 1..], last))
  {
    assert cons == cons[..p] + cons[p..] && outs == outs[..p] + outs[p..];
    RanConcat(cons[..p], outs[..p], cons[p..], outs[p..], true);
    RanConcat(cons[..p], outs[..p], cons[p + 1..], outs[p + 1..], true);
  }

  // Around a constant that succeeds: what follows it, with and without it.
  lemma RanAt(cons: seq<Con>, outs: seq<bool>, last: bool)
    requires |cons| == |outs| > 0 && outs[0]
    ensures Ran(cons, outs, last) == if Taken(cons[0], last) then 1 + Ran(cons[1..], outs[1..], true) else 0
  {
  }

  lemma RemoveFine(cons: seq<Con>, sure: seq<bool>, outs: seq<bool>, p: nat)
    requires p < |cons| == |sure| && sure[p] && cons[p] != NThen && Respects(sure, outs)
    requires p + 1 == |cons| || cons[p] == cons[p + 1] || false !in Ends(cons[..p], sure[..p], {true})
    ensures SameRun(cons, outs, p)
  {
    RanAround(cons, outs, p);
    RanAt(cons[p..], outs[p..], Last(outs[..p], true));
    assert cons[p..][1..] == cons[p + 1..] && outs[p..][1..] == outs[p + 1..];
    if Ran(cons[..p], outs[..p], true) == p {
      EndsComplete(cons[..p], sure[..p], {true}, outs[..p], true);
    }
  }

  lemma RemoveVisible(cons: seq<Con>, sure: seq<bool>, p: nat) returns (outs: seq<bool>)
    requires p + 1 < |cons| == |sure| && sure[p] && cons[p] != NThen
    requires cons[p] != cons[p + 1] && false in Ends(cons[..p], sure[..p], {true})
    ensures Respects(sure, outs) && !SameRun(cons, outs, p)
  {
    var ok, o := EndsPossible(cons[..p], sure[..p], {true}, false);
    outs := o + seq(|cons| - p, i => true);
    assert outs[..p] == o && outs[p..][0] && outs[p..][1..] == outs[p + 1..];
    RanAround(cons, outs, p);
    RanAt(cons[p..], outs[p..], false);
    assert cons[p..][1..] == cons[p + 1..];
  }

  // Taking a constant action out of a chain goes unnoticed, whatever the
  // actions of unknown outcome answer, exactly when nothing follows it, or
  // the connectors before and after it are the same, or the chain can not
  // get to it after a failure.
  lemma RemoveExact(cons: seq<Con>, sure: seq<bool>, p: nat)
    requires p < |cons| == |sure| && sure[p] && cons[p] != NThen
    ensures (forall outs | Respects(sure, outs) :: SameRun(cons, outs, p))
       <==> p + 1 == |cons| || cons[p] == cons[p + 1] || false !in Ends(cons[..p], sure[..p], {true})
  {
    if p + 1 == |cons| || cons[p] == cons[p + 1] || false !in Ends(cons[..p], sure[..p], {true}) {
      forall outs | Respects(sure, outs) ensures SameRun(cons, outs, p) {
        RemoveFine(cons, sure, outs, p);
      }
    } else {
      var outs := RemoveVisible(cons, sure, p);
    }
  }

  // ----- dropping the rest of a chain, exactly -----

  // The constant at p and all that follows it are dropped.
  predicate SameCut(cons: seq<Con>, outs: seq<bool>, p: nat)
    requires p < |cons| == |outs|
  {
    Others(Ran(cons, outs, true), p) == Ran(cons[..p], outs[..p], true)
  }

  lemma CutVisible(cons: seq<Con>, sure: seq<bool>, p: nat) returns (outs: seq<bool>)
    requires p + 1 < |cons| == |sure| && sure[p] && cons[p] == NThen
    requires cons[p + 1] != NThen && false in Ends(cons[..p], sure[..p], {true})
    ensures Respects(sure, outs) && !SameCut(cons, outs, p)
  {
    var ok, o := EndsPossible(cons[..p], sure[..p], {true}, false);
    outs := o + seq(|cons| - p, i => true);
    assert outs[..p] == o && outs[p..][0];
    RanAround(cons, outs, p);
    RanAt(cons[p..], outs[p..], false);
    assert cons[p..][1..] == cons[p + 1..];
  }

  lemma CutExact(cons: seq<Con>, sure: seq<bool>, p: nat)
    requires p < |cons| == |sure| && sure[p] && cons[p] == NThen
    ensures (forall outs | Respects(sure, outs) :: SameCut(cons, outs, p))
       <==> p + 1 == |cons| || cons[p + 1] == NThen || false !in Ends(cons[..p], sure[..p], {true})
  {
    if p + 1 == |cons| || cons[p + 1] == NThen || false !in Ends(cons[..p], sure[..p], {true}) {
      forall outs | Respects(sure, outs) ensures SameCut(cons, outs, p) {
        RanAround(cons, outs, p);
        RanAt(cons[p..], outs[p..], Last(outs[..p], true));
        assert cons[p..][1..] == cons[p + 1..];
        if Ran(cons[..p], outs[..p], true) == p {
          EndsComplete(cons[..p], sure[..p], {true}, outs[..p], true);
        }
      }
    } else {
      var outs := CutVisible(cons, sure, p);
    }
  }
}
