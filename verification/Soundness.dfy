// Programs without type errors do not go wrong: over whole runs every
// expression has its annotated type, every variable keeps its declared type,
// and the only faults left are those no type can exclude.
module Soundness {
  import opened Types
  import opened Syntax
  import opened Semantics
  import opened TypeCheck

  // ----- the checker on rules and programs -----

  function AnnotateRule(r: Rule): Rule {
    Rule(Annotate(r.expr), AnnotateActs(r.acts))
  }

  function AnnotateActs(acts: seq<Act>): (r: seq<Act>)
    ensures |r| == |acts|
  {
    if acts == [] then [] else [Act(acts[0].con, Annotate(acts[0].what))] + AnnotateActs(acts[1..])
  }

  function AnnotateRules(rs: seq<Rule>): (r: seq<Rule>)
    ensures |r| == |rs|
  {
    if rs == [] then [] else [AnnotateRule(rs[0])] + AnnotateRules(rs[1..])
  }

  function AnnotateSections(ss: seq<Section>): (r: seq<Section>)
    ensures |r| == |ss|
  {
    if ss == [] then [] else [Section(ss[0].id, AnnotateRules(ss[0].rules))] + AnnotateSections(ss[1..])
  }

  // The errors of one annotated action: it must be a call, of an action.
  function ActErrors(k: Checks, e: Expr, t: Type): nat {
    Count(!e.Call?) + Count(!(e.Call? && IsAction(e.fn))) + Errors(k, e, DataType(e), t, true)
  }

  function ActsErrors(k: Checks, acts: seq<Act>, t: Type): nat {
    if acts == [] then 0 else ActErrors(k, acts[0].what, t) + ActsErrors(k, acts[1..], t)
  }

  function RulesErrors(k: Checks, rs: seq<Rule>, t: Type): nat {
    if rs == [] then 0
    else
      RuleErrors(k, rs[0], t) + RulesErrors(k, rs[1..], t)
  }

  function RuleErrors(k: Checks, r: Rule, t: Type): nat {
    Count(DataType(r.expr).tval != TVBool) + Errors(k, r.expr, DataType(r.expr), t, false) + ActsErrors(k, r.acts, t)
  }

  predicate KnownSection(id: string) {
    id == "Msg" || id == "Graph" || id == "MsgGraph" || id == "External"
  }

  function SectionType(id: string): Type {
    Type(TVUniv,
         if id == "Msg" then TEMsg else if id == "Graph" then TEGraph
         else if id == "External" then TEExternal else TEMsgGraph)
  }

  function ProgErrors(k: Checks, ss: seq<Section>): nat {
    if ss == [] then 0
    else
      Count(!KnownSection(ss[0].id)) + RulesErrors(k, ss[0].rules, SectionType(ss[0].id))
      + ProgErrors(k, ss[1..])
  }

  // ----- the typing rules on programs -----

  predicate RuleTyped(k: Checks, r: Rule) {
    && TypeOf(r.expr) == TVBool && Specials(k, r.expr)
    && forall a | a in r.acts :: ActionTyped(a.what) && Specials(k, a.what)
  }

  predicate RulesTyped(k: Checks, rs: seq<Rule>) {
    forall r | r in rs :: RuleTyped(k, r)
  }

  predicate SectionTyped(k: Checks, s: Section) {
    KnownSection(s.id) && RulesTyped(k, s.rules)
  }

  predicate ProgTyped(k: Checks, ss: seq<Section>) {
    forall s | s in ss :: SectionTyped(k, s)
  }

  predicate RuleParsed(r: Rule, g: Scope) {
    && Parsed(r.expr, g)
    && forall a | a in r.acts :: Parsed(a.what, g)
  }

  predicate RulesParsed(rs: seq<Rule>, g: Scope) {
    forall r | r in rs :: RuleParsed(r, g)
  }

  predicate SectionParsed(s: Section, g: Scope) {
    RulesParsed(s.rules, g)
  }

  predicate ProgParsed(ss: seq<Section>, g: Scope) {
    forall s | s in ss :: SectionParsed(s, g)
  }

  lemma {:induction false} ActsErrorsExact(k: Checks, acts: seq<Act>, g: Scope, t: Type)
    requires ScopeOk(g) && InSection(t) && forall a | a in acts :: Parsed(a.what, g)
    ensures ActsErrors(k, AnnotateActs(acts), t) == 0
       <==> forall a | a in acts :: ActionTyped(a.what) && Specials(k, a.what)
  {
    if acts != [] {
      assert acts[0] in acts;
      ActErrorsExact(k, acts[0].what, g, t);
      assert AnnotateActs(acts)[0].what == Annotate(acts[0].what);
      assert AnnotateActs(acts)[1..] == AnnotateActs(acts[1..]);
      ActsErrorsExact(k, acts[1..], g, t);
      assert acts == [acts[0]] + acts[1..];
    }
  }

  lemma ActErrorsExact(k: Checks, e: Expr, g: Scope, t: Type)
    requires ScopeOk(g) && InSection(t) && Parsed(e, g)
    ensures ActErrors(k, Annotate(e), t) == 0 <==> ActionTyped(e) && Specials(k, e)
  {
    if e.Call? { CallErrorsExact(k, e, g, t, true); }
  }

  lemma RuleErrorsExact(k: Checks, r: Rule, g: Scope, t: Type)
    requires ScopeOk(g) && InSection(t) && RuleParsed(r, g)
    ensures RuleErrors(k, AnnotateRule(r), t) == 0 <==> RuleTyped(k, r)
  {
    ErrorsExact(k, r.expr, g, t);
    if TypeOf(r.expr) != TVUndef { AnnotateTyped(r.expr, g); }
    ActsErrorsExact(k, r.acts, g, t);
  }

  lemma RulesErrorsStep(k: Checks, rs: seq<Rule>, t: Type)
    requires rs != []
    ensures RulesErrors(k, AnnotateRules(rs), t) ==
      RuleErrors(k, AnnotateRule(rs[0]), t) + RulesErrors(k, AnnotateRules(rs[1..]), t)
  {
    assert AnnotateRules(rs)[0] == AnnotateRule(rs[0]);
    assert AnnotateRules(rs)[1..] == AnnotateRules(rs[1..]);
  }

  lemma {:induction false} RulesErrorsExact(k: Checks, rs: seq<Rule>, g: Scope, t: Type)
    requires ScopeOk(g) && InSection(t) && RulesParsed(rs, g)
    ensures RulesErrors(k, AnnotateRules(rs), t) == 0 <==> RulesTyped(k, rs)
  {
    if rs != [] {
      hide RulesTyped, RulesParsed, RulesErrors;
      FirstRule(k, rs, g);
      RuleErrorsExact(k, rs[0], g, t);
      RulesErrorsStep(k, rs, t);
      RulesErrorsExact(k, rs[1..], g, t);
    }
  }

  lemma FirstRule(k: Checks, rs: seq<Rule>, g: Scope)
    requires rs != []
    ensures RulesTyped(k, rs) <==> RuleTyped(k, rs[0]) && RulesTyped(k, rs[1..])
    ensures RulesParsed(rs, g) ==> RuleParsed(rs[0], g) && RulesParsed(rs[1..], g)
  {
    assert rs == [rs[0]] + rs[1..];
  }

  lemma SectionsErrors(k: Checks, ss: seq<Section>)
    requires ss != []
    ensures ProgErrors(k, AnnotateSections(ss)) ==
      Count(!KnownSection(ss[0].id)) + RulesErrors(k, AnnotateRules(ss[0].rules), SectionType(ss[0].id))
      + ProgErrors(k, AnnotateSections(ss[1..]))
  {
    assert AnnotateSections(ss)[1..] == AnnotateSections(ss[1..]);
  }

  // The checker accepts exactly the programs the typing rules accept.
  lemma {:induction false} ProgErrorsExact(k: Checks, ss: seq<Section>, g: Scope)
    requires ScopeOk(g) && ProgParsed(ss, g)
    ensures ProgErrors(k, AnnotateSections(ss)) == 0 <==> ProgTyped(k, ss)
  {
    if ss != [] {
      hide ProgTyped, ProgParsed, ProgErrors;
      FirstSection(k, ss, g);
      RulesErrorsExact(k, ss[0].rules, g, SectionType(ss[0].id));
      SectionsErrors(k, ss);
      ProgErrorsExact(k, ss[1..], g);
    }
  }

  lemma FirstSection(k: Checks, ss: seq<Section>, g: Scope)
    requires ss != []
    ensures ProgTyped(k, ss) <==> SectionTyped(k, ss[0]) && ProgTyped(k, ss[1..])
    ensures ProgParsed(ss, g) ==> SectionParsed(ss[0], g) && ProgParsed(ss[1..], g)
  {
    assert ss == [ss[0]] + ss[1..];
  }

  // ----- expressions -----

  predicate StoreTyped(st: St, g: Scope) {
    && (CURR_LEVEL in g ==> g[CURR_LEVEL] == TVInt)
    && forall x | x in g && x != CURR_LEVEL :: x in st.vars && ValueType(st.vars[x]) == g[x]
  }

  predicate Divides(e: Expr) {
    match e
    case Call(_, args, _) => DividesAny(args)
    case Bin(op, l, r, _) => op == OpDiv || op == OpMod || Divides(l) || Divides(r)
    case Un(_, r, _) => Divides(r)
    case _ => false
  }

  predicate DividesAny(es: seq<Expr>) {
    es != [] && (Divides(es[0]) || DividesAny(es[1..]))
  }

  // Whether a function is called whose body looks at the robot.
  predicate Queries(e: Expr) {
    match e
    case Call(f, args, _) => f !in {FSignal, FLevelName, FString} || QueriesAny(args)
    case Bin(_, l, r, _) => Queries(l) || Queries(r)
    case Un(_, r, _) => Queries(r)
    case _ => false
  }

  predicate QueriesAny(es: seq<Expr>) {
    es != [] && (Queries(es[0]) || QueriesAny(es[1..]))
  }

  predicate FaultExplained(f: Fault, div: bool, query: bool) {
    (f == DivZero && div) || (f == NoQuery && query)
  }

  lemma ReturnType(f: Fn)
    ensures SigOf(f).ret.tval == if f in {FLevelName, FString} then TVString else TVBool
    ensures f in {FSignal, FLevelName, FString} ==> !SigOf(f).variadic && |SigOf(f).args| == 1
  {
  }

  lemma OpSound(a: Value, b: Value, op: Op)
    requires ValueType(a) == ValueType(b) != TVUndef && IsCompatOp(ValueType(a), op)
    ensures
      var c := BinExpr(a, b, op);
      (c.err.Some? ==> c.err.value == DivZero && (op == OpDiv || op == OpMod))
      && ValueType(c.v) == if IsCompareOp(op) then TVBool else ValueType(a)
  {
  }

  // A typed expression evaluates to a value of its type, unless it divides an
  // integer by zero or a query has nothing to look at.
  lemma {:induction false} EvalSound(w: World, e: Expr, st: St, sig: Sig, g: Scope)
    requires ScopeOk(g) && StoreTyped(st, g) && Annotated(e, g) && TypeOf(e) != TVUndef
    ensures
      var r := Eval(w, e, st, sig);
      if r.Ok? then ValueType(r.v) == TypeOf(e)
      else FaultExplained(r.fault, Divides(e), Queries(e))
    decreases e
  {
    match e
    case Call(f, args, dt) =>
      EvalAllSound(w, SigOf(f), args, 0, args, st, sig, g);
      ReturnType(f);
      var rs := EvalAll(w, args, st, sig);
      if rs.Oks? { CallSound(w, f, rs.vs, st, rs.sig); }
    case Bin(op, l, r, dt) =>
      EvalSound(w, l, st, sig, g);
      var a := Eval(w, l, st, sig);
      if a.Ok? && !IsShort(op, a.v) {
        EvalSound(w, r, st, a.sig, g);
        var b := Eval(w, r, st, a.sig);
        if b.Ok? { OpSound(a.v, b.v, op); }
      }
    case Un(op, r, dt) =>
      EvalSound(w, r, st, sig, g);
    case _ =>
  }

  predicate HasType(r: Res, t: TypeVal) {
    r.Ok? ==> ValueType(r.v) == t
  }

  lemma ValueTyped(w: World, e: Expr, st: St, sig: Sig, g: Scope)
    requires ScopeOk(g) && StoreTyped(st, g) && Annotated(e, g) && TypeOf(e) != TVUndef
    ensures HasType(Eval(w, e, st, sig), TypeOf(e))
  {
    EvalSound(w, e, st, sig, g);
  }

  lemma CallSound(w: World, f: Fn, vs: seq<Value>, st: St, sig: Sig)
    ensures
      var r := CallFn(w, f, vs, st, sig);
      if r.Ok? then ValueType(r.v) == (if f in {FLevelName, FString} then TVString else TVBool)
      else r.fault == NoQuery && (f in {FSignal, FLevelName, FString} ==> |vs| == 0)
  {
  }

  lemma {:induction false} EvalAllSound(
      w: World, s: FnSig, args: seq<Expr>, i: nat, rest: seq<Expr>, st: St, sig: Sig, g: Scope)
    requires ScopeOk(g) && StoreTyped(st, g) && AnnotatedAll(rest, g)
    requires i <= |args| && rest == args[i..] && ArgsTyped(s, args, i, rest)
    ensures
      var r := EvalAll(w, rest, st, sig);
      if r.Oks? then forall j | 0 <= j < |rest| :: ValueType(r.vs[j]) == TypeOf(rest[j])
      else FaultExplained(r.fault, DividesAny(rest), QueriesAny(rest))
    decreases rest
  {
    if rest != [] {
      EvalSound(w, rest[0], st, sig, g);
      var a := Eval(w, rest[0], st, sig);
      if a.Ok? {
        EvalAllSound(w, s, args, i + 1, rest[1..], st, a.sig, g);
      }
    }
  }

  // ----- actions, chains and runs -----

  // What this model excludes by hypothesis: no rule sets CurrLevel, and
  // trigger is given a level by its name.
  predicate InModel(e: Expr) {
    && (e.Call? && e.fn == FSet ==> |e.args| == 2 && e.args[0].Var? && e.args[0].name != CURR_LEVEL)
    && (e.Call? && e.fn == FTrigger ==> |e.args| == 1 && e.args[0].Level?)
  }

  predicate ActSafe(e: Expr, g: Scope) {
    ActionTyped(e) && AnnotatedAll(e.args, g) && InModel(e)
  }

  predicate RuleSafe(r: Rule, g: Scope) {
    && Annotated(r.expr, g) && TypeOf(r.expr) == TVBool
    && forall a | a in r.acts :: ActSafe(a.what, g)
  }

  predicate ProgSafe(ss: seq<Section>, g: Scope) {
    && ScopeOk(g)
    && (TIME in g ==> g[TIME] == TVInt) && (UPTIME in g ==> g[UPTIME] == TVInt)
    && forall s | s in ss :: forall r | r in s.rules :: RuleSafe(r, g)
  }

  predicate FaultExcused(f: Fault) {
    f == DivZero || f == NoQuery
  }

  lemma ActSound(w: World, e: Expr, st: St, sig: Sig, g: Scope)
    requires ScopeOk(g) && StoreTyped(st, g) && ActSafe(e, g)
    ensures
      var r := RunAct(w, e, st, sig);
      match r
      case ActOk(_, st', _) => StoreTyped(st', g)
      case ActStop(_) => true
      case ActFault(f) => FaultExcused(f)
  {
    if e.fn == FSet {
      SetSound(w, e, st, sig, g);
    } else if e.fn != FTrigger {
      OutwardSound(w, e, st, sig, g);
    }
  }

  lemma SetSound(w: World, e: Expr, st: St, sig: Sig, g: Scope)
    requires ScopeOk(g) && StoreTyped(st, g) && ActSafe(e, g) && e.fn == FSet
    ensures
      var x, r := e.args[0].name, Eval(w, e.args[1], st, sig);
      if r.Ok? then StoreTyped(st.(vars := st.vars[x := r.v]), g) else FaultExcused(r.fault)
  {
    var args := e.args;
    assert args == [args[0], args[1]] && args[1..] == [args[1]];
    assert AnnotatedAll(args[1..], g) && ArgsTyped(SigOf(FSet), args, 1, args[1..]);
    assert Annotated(args[0], g) && Annotated(args[1], g);
    EvalSound(w, args[1], st, sig, g);
  }

  lemma OutwardSound(w: World, e: Expr, st: St, sig: Sig, g: Scope)
    requires ScopeOk(g) && StoreTyped(st, g) && ActSafe(e, g) && e.fn != FSet && e.fn != FTrigger
    ensures
      var rs := EvalAll(w, e.args, st, sig);
      if rs.Oks? then (e.fn in {FAlert, FCrash, FExec} ==> |rs.vs| > 0) else FaultExcused(rs.fault)
  {
    EvalAllSound(w, SigOf(e.fn), e.args, 0, e.args, st, sig, g);
    ActionArity(e.fn);
  }

  lemma ActionArity(f: Fn)
    ensures f in {FAlert, FCrash} ==> !SigOf(f).variadic && |SigOf(f).args| == 1
    ensures f == FExec ==> |SigOf(f).args| == 2
  {
  }

  predicate RunSound(r: RunRes, g: Scope) {
    match r
    case Done(st, _) => StoreTyped(st, g)
    case Stop(_) => true
    case Fail(f) => FaultExcused(f)
  }

  lemma {:induction false} ChainSound(w: World, acts: seq<Act>, success: bool, st: St, sig: Sig, g: Scope)
    requires ScopeOk(g) && StoreTyped(st, g) && forall a | a in acts :: ActSafe(a.what, g)
    ensures RunSound(RunChain(w, acts, success, st, sig), g)
    decreases acts
  {
    if acts != [] && Taken(acts[0].con, success) {
      ActSound(w, acts[0].what, st, sig, g);
      var r := RunAct(w, acts[0].what, st, sig);
      if r.ActOk? { ChainSound(w, acts[1..], r.success, r.st, r.sig, g); }
    }
  }

  lemma RuleSound(w: World, r: Rule, st: St, sig: Sig, g: Scope)
    requires ScopeOk(g) && RuleSafe(r, g) && StoreTyped(st, g)
    ensures RunSound(RunRule(w, r, st, sig), g)
  {
    EvalSound(w, r.expr, st, sig, g);
    var v := Eval(w, r.expr, st, sig);
    if v.Ok? { ChainSound(w, r.acts, true, st, v.sig, g); }
  }

  lemma {:induction false} RulesSound(w: World, rs: seq<Rule>, st: St, sig: Sig, g: Scope)
    requires ScopeOk(g) && StoreTyped(st, g) && forall r | r in rs :: RuleSafe(r, g)
    ensures RunSound(RunRules(w, rs, st, sig), g)
    decreases rs
  {
    if rs != [] {
      assert rs[0] in rs;
      RuleSound(w, rs[0], st, sig, g);
      var r := RunRule(w, rs[0], st, sig);
      if r.Done? { RulesSound(w, rs[1..], r.st, r.sig, g); }
    }
  }

  lemma {:induction false} SectionsSound(w: World, ss: seq<Section>, kind: string, st: St, sig: Sig, g: Scope)
    requires ProgSafe(ss, g) && StoreTyped(st, g)
    ensures RunSound(RunSections(w, ss, kind, st, sig), g)
    decreases ss
  {
    if ss != [] {
      assert ss[0] in ss;
      if ss[0].id == kind { RulesSound(w, ss[0].rules, st, sig, g); }
      SectionsSound(w, ss[1..], kind, st, sig, g);
    }
  }

  // Type soundness over whole runs.
  lemma {:induction false} StreamSound(p: Prog, inputs: seq<Input>, st: St, sig: Sig, g: Scope)
    requires ProgSafe(p.sections, g) && StoreTyped(st, g)
    ensures RunSound(RunStream(p, inputs, st, sig), g)
    decreases inputs
  {
    if inputs != [] {
      match inputs[0]
      case Usr1 => StreamSound(p, inputs[1..], st, sig.(usr1 := sig.usr1 + 1), g);
      case Usr2 => StreamSound(p, inputs[1..], st, sig.(usr2 := sig.usr2 + 1), g);
      case Run(w, kind, t, u) =>
        var st' := SetPredef(st, t, u);
        assert StoreTyped(st', g);
        SectionsSound(w, p.sections, kind, st', sig, g);
        var r := RunSections(w, p.sections, kind, st', sig);
        if r.Done? { StreamSound(p, inputs[1..], r.st, r.sig, g); }
    }
  }

  // A rule the checker accepts is safe once annotated.
  lemma CheckedRuleSafe(k: Checks, r: Rule, g: Scope)
    requires ScopeOk(g) && RuleParsed(r, g) && RuleTyped(k, r) && forall a | a in r.acts :: InModel(a.what)
    ensures RuleSafe(AnnotateRule(r), g)
  {
    AnnotateTyped(r.expr, g);
    AnnotateKeeps(k, r.expr);
    ActsSafe(k, r.acts, g);
  }

  lemma {:induction false} ActsSafe(k: Checks, acts: seq<Act>, g: Scope)
    requires ScopeOk(g)
    requires forall a | a in acts :: Parsed(a.what, g) && ActionTyped(a.what) && InModel(a.what)
    ensures forall a | a in AnnotateActs(acts) :: ActSafe(a.what, g)
  {
    if acts != [] {
      var e := acts[0].what;
      assert acts[0] in acts;
      AnnotateAllTyped(SigOf(e.fn), e.args, AnnotateAll(e.args), 0, e.args, g);
      AnnotateAllKeeps(k, SigOf(e.fn), e.args, AnnotateAll(e.args), 0, e.args);
      assert AnnotateAll(e.args)[0..] == AnnotateAll(e.args);
      if e.fn == FSet || e.fn == FTrigger { AnnotateArgsKeep(k, e.args); }
      ActsSafe(k, acts[1..], g);
    }
  }

  lemma AnnotateArgsKeep(k: Checks, args: seq<Expr>)
    requires 1 <= |args| <= 2
    ensures AnnotateAll(args)[0] == Annotate(args[0]) && TypeOf(Annotate(args[0])) == TypeOf(args[0])
    ensures |args| == 2 ==> AnnotateAll(args)[1] == Annotate(args[1]) && TypeOf(Annotate(args[1])) == TypeOf(args[1])
  {
    AnnotateKeeps(k, args[0]);
    if |args| == 2 {
      AnnotateKeeps(k, args[1]);
      assert AnnotateAll(args[1..])[0] == Annotate(args[1]);
    }
  }

  // From the checker's verdict to every run: a program in which it finds no
  // error, annotated by it, keeps its store typed and fails only by a
  // division by zero or by a query with nothing to look at.
  lemma CheckedProgramSound(k: Checks, ss: seq<Section>, inputs: seq<Input>, st: St, sig: Sig, g: Scope)
    requires ScopeOk(g) && ProgParsed(ss, g) && StoreTyped(st, g)
    requires TIME in g ==> g[TIME] == TVInt
    requires UPTIME in g ==> g[UPTIME] == TVInt
    requires forall s | s in ss :: forall r | r in s.rules :: forall a | a in r.acts :: InModel(a.what)
    requires ProgErrors(k, AnnotateSections(ss)) == 0
    ensures RunSound(RunStream(Prog(AnnotateSections(ss)), inputs, st, sig), g)
  {
    ProgErrorsExact(k, ss, g);
    SectionsSafe(k, ss, g);
    StreamSound(Prog(AnnotateSections(ss)), inputs, st, sig, g);
  }

  lemma {:induction false} SectionsSafe(k: Checks, ss: seq<Section>, g: Scope)
    requires ScopeOk(g) && ProgParsed(ss, g) && ProgTyped(k, ss)
    requires forall s | s in ss :: forall r | r in s.rules :: forall a | a in r.acts :: InModel(a.what)
    ensures forall s | s in AnnotateSections(ss) :: forall r | r in s.rules :: RuleSafe(r, g)
  {
    if ss != [] {
      assert ss[0] in ss;
      RulesSafe(k, ss[0].rules, g);
      SectionsSafe(k, ss[1..], g);
    }
  }

  lemma {:induction false} RulesSafe(k: Checks, rs: seq<Rule>, g: Scope)
    requires ScopeOk(g)
    requires RulesParsed(rs, g) && RulesTyped(k, rs)
    requires forall r | r in rs :: forall a | a in r.acts :: InModel(a.what)
    ensures forall r | r in AnnotateRules(rs) :: RuleSafe(r, g)
  {
    if rs != [] {
      assert rs[0] in rs;
      CheckedRuleSafe(k, rs[0], g);
      RulesSafe(k, rs[1..], g);
    }
  }
}
