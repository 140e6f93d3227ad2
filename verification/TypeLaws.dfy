// Which calls the type checker lets pass (tree/type.go, tree/builtins.go), by
// the kinds of arguments that functions take, without the table of signatures.
module TypeLaws {
  import opened Types
  import opened Syntax
  import opened TypeCheck
  import opened Soundness

  // ----- functions by their arguments -----

  const ONE_TEXT := {FAlert, FCrash, FPayload, FPlugin, FTopicMatches, FService, FSignal, FIdsAlert}
  const TEXTS := {
    FMsgTypeIn, FPublishers, FPublishersInclude, FSubscribers, FSubscribersInclude, FTopicIn, FNodes,
    FNodesInclude, FServices, FServicesInclude, FTopics, FTopicsInclude}
  const SOME_TEXTS := {FExec, FTopicPublishers, FTopicPublishersInclude, FTopicSubscribersInclude}
  const TWO_TEXTS := {FMsgSubtype, FTopicSubscribers}
  const TWO_INTS := {FPublisherCount, FSubscriberCount, FNodeCount, FServiceCount, FTopicCount}
  const TEXT_AND_TWO_INTS := {FTopicPublisherCount, FTopicSubscriberCount}
  const ONE_INT := {FTrigger, FLevelName}

  const ACTIONS := {FSet, FTrigger, FAlert, FExec, FTrue, FFalse, FCrash}

  predicate AllOf(ts: seq<TypeVal>, t: TypeVal) {
    forall i | 0 <= i < |ts| :: ts[i] == t
  }

  // The types of arguments that a function takes; True, False, set and string
  // take values of any type.
  predicate Accepts(f: Fn, ts: seq<TypeVal>) {
    if f in ONE_TEXT then ts == [TVString]
    else if f in TEXTS then AllOf(ts, TVString)
    else if f in SOME_TEXTS then ts != [] && AllOf(ts, TVString)
    else if f in TWO_TEXTS then ts == [TVString, TVString]
    else if f in TWO_INTS then ts == [TVInt, TVInt]
    else if f in TEXT_AND_TWO_INTS then ts == [TVString, TVInt, TVInt]
    else if f in ONE_INT then ts == [TVInt]
    else
      && TVUndef !in ts
      && (f == FSet ==> |ts| == 2) && (f == FString ==> |ts| == 1)
  }

  function TypesOf(args: seq<Expr>): (ts: seq<TypeVal>)
    ensures |ts| == |args| && forall i | 0 <= i < |ts| :: ts[i] == TypeOf(args[i])
  {
    seq(|args|, i requires 0 <= i < |args| => TypeOf(args[i]))
  }

  // ----- typed calls -----

  lemma {:induction false} ArgByArg(s: FnSig, args: seq<Expr>, i: nat)
    requires i <= |args| && ArityOk(s, |args|)
    ensures ArgsTyped(s, args, i, args[i..]) <==> forall j | i <= j < |args| :: ArgTyped(s, args, j, TypeOf(args[j]))
    decreases |args| - i
  {
    if i < |args| {
      ArgByArg(s, args, i + 1);
      assert args[i..][1..] == args[i + 1..];
    }
  }

  predicate Concrete(ts: seq<TypeVal>) {
    forall i | 0 <= i < |ts| :: ts[i] in {TVUndef, TVInt, TVBool, TVString}
  }

  // A type that a parameter takes.
  predicate Takes(p: TypeVal, t: TypeVal) {
    t != TVUndef && (p == TVUniv || t == p)
  }

  // Types for parameters, of which the last may repeat or be left out.
  predicate TakesAll(ps: seq<TypeVal>, repeats: bool, ts: seq<TypeVal>) {
    && ps != [] && (if repeats then |ts| + 1 >= |ps| else |ts| == |ps|)
    && forall j | 0 <= j < |ts| :: Takes(ps[if j < |ps| then j else |ps| - 1], ts[j])
  }

  function Params(s: FnSig): (ps: seq<TypeVal>)
    ensures |ps| == |s.args| && forall i | 0 <= i < |ps| :: ps[i] == s.args[i].tval
  {
    seq(|s.args|, i requires 0 <= i < |s.args| => s.args[i].tval)
  }

  lemma ArgsTaken(s: FnSig, args: seq<Expr>)
    requires Concrete(TypesOf(args)) && s.args != []
    requires forall i | 0 <= i < |s.args| :: s.args[i].tval in {TVUniv, TVInt, TVString}
    ensures ArgsTyped(s, args, 0, args) <==> TakesAll(Params(s), s.variadic, TypesOf(args))
  {
    hide ArgTyped, Takes;
    var ps, ts := Params(s), TypesOf(args);
    assert args[0..] == args;
    if ArityOk(s, |args|) {
      ArgByArg(s, args, 0);
      forall j | 0 <= j < |args|
        ensures ArgTyped(s, args, j, ts[j]) <==> Takes(ps[if j < |ps| then j else |ps| - 1], ts[j])
      {
        OneTaken(s, args, j);
      }
    }
  }

  lemma OneTaken(s: FnSig, args: seq<Expr>, j: nat)
    requires Concrete(TypesOf(args)) && ArityOk(s, |args|) && j < |args| && s.args != []
    requires forall i | 0 <= i < |s.args| :: s.args[i].tval in {TVUniv, TVInt, TVString}
    ensures
      ArgTyped(s, args, j, TypeOf(args[j])) <==>
      Takes(Params(s)[if j < |s.args| then j else |s.args| - 1], TypeOf(args[j]))
  {
    assert TypesOf(args)[j] == TypeOf(args[j]);
    assert ArgType(s, j, |args|) == s.args[if j < |s.args| then j else |s.args| - 1];
  }

  // The parameters of a function, and whether the last one repeats.
  function Shape(f: Fn): (seq<TypeVal>, bool) {
    if f in ONE_TEXT then ([TVString], false)
    else if f in TEXTS then ([TVString], true)
    else if f in SOME_TEXTS then ([TVString, TVString], true)
    else if f in TWO_TEXTS then ([TVString, TVString], false)
    else if f in TWO_INTS then ([TVInt, TVInt], false)
    else if f in TEXT_AND_TWO_INTS then ([TVString, TVInt, TVInt], false)
    else if f in ONE_INT then ([TVInt], false)
    else if f == FSet then ([TVUniv, TVUniv], false)
    else ([TVUniv], f != FString)
  }

  predicate HasParams(f: Fn, ps: seq<TypeVal>, repeats: bool) {
    var s := SigOf(f);
    s.variadic == repeats && |s.args| == |ps| && forall i | 0 <= i < |ps| :: s.args[i].tval == ps[i]
  }

  lemma OneText(f: Fn)
    requires f in ONE_TEXT
    ensures HasParams(f, [TVString], false)
  {
  }

  lemma SomeTextOnMessage(f: Fn)
    requires f in {FMsgTypeIn, FPublishers, FPublishersInclude, FSubscribers, FSubscribersInclude, FTopicIn}
    ensures HasParams(f, [TVString], true)
  {
  }

  lemma SomeTextOnGraph(f: Fn)
    requires f in {FNodes, FNodesInclude, FServices, FServicesInclude, FTopics, FTopicsInclude}
    ensures HasParams(f, [TVString], true)
  {
  }

  lemma SomeText(f: Fn)
    requires f in TEXTS
    ensures HasParams(f, [TVString], true)
  {
    hide HasParams;
    if f in {FMsgTypeIn, FPublishers, FPublishersInclude, FSubscribers, FSubscribersInclude, FTopicIn} {
      SomeTextOnMessage(f);
    } else {
      SomeTextOnGraph(f);
    }
  }

  lemma ParamsAre(f: Fn, ps: seq<TypeVal>, repeats: bool)
    requires HasParams(f, ps, repeats)
    ensures Params(SigOf(f)) == ps && SigOf(f).variadic == repeats
  {
    hide SigOf;
  }

  lemma TextAndMore(f: Fn)
    requires f in SOME_TEXTS
    ensures HasParams(f, [TVString, TVString], true)
  {
  }

  lemma TwoTexts(f: Fn)
    requires f in TWO_TEXTS
    ensures HasParams(f, [TVString, TVString], false)
  {
  }

  lemma TwoInts(f: Fn)
    requires f in TWO_INTS
    ensures HasParams(f, [TVInt, TVInt], false)
  {
  }

  lemma TextAndTwoInts(f: Fn)
    requires f in TEXT_AND_TWO_INTS
    ensures HasParams(f, [TVString, TVInt, TVInt], false)
  {
  }

  lemma OneInt(f: Fn)
    requires f in ONE_INT
    ensures HasParams(f, [TVInt], false)
  {
  }

  lemma AnyValues(f: Fn)
    requires f in {FSet, FString, FTrue, FFalse}
    ensures HasParams(f, if f == FSet then [TVUniv, TVUniv] else [TVUniv], f == FTrue || f == FFalse)
  {
  }

  lemma Grouped(f: Fn)
    ensures
      f in ONE_TEXT || f in TEXTS || f in SOME_TEXTS || f in TWO_TEXTS || f in TWO_INTS || f in TEXT_AND_TWO_INTS
      || f in ONE_INT || f in {FSet, FString, FTrue, FFalse}
  {
  }

  lemma ShapeOfSig(f: Fn)
    ensures HasParams(f, Shape(f).0, Shape(f).1)
  {
    hide HasParams, ONE_TEXT, TEXTS, SOME_TEXTS, TWO_TEXTS, TWO_INTS, TEXT_AND_TWO_INTS, ONE_INT;
    Grouped(f);
    if f in ONE_TEXT { OneText(f); }
    else if f in TEXTS { SomeText(f); }
    else if f in SOME_TEXTS { TextAndMore(f); }
    else if f in TWO_TEXTS { TwoTexts(f); }
    else if f in TWO_INTS { TwoInts(f); }
    else if f in TEXT_AND_TWO_INTS { TextAndTwoInts(f); }
    else if f in ONE_INT { OneInt(f); }
    else { AnyValues(f); }
  }

  predicate IsFixed(f: Fn) {
    f in ONE_TEXT || f in TWO_TEXTS || f in TWO_INTS || f in TEXT_AND_TWO_INTS || f in ONE_INT
  }

  lemma FixedAccepts(f: Fn, ts: seq<TypeVal>)
    requires IsFixed(f)
    ensures Accepts(f, ts) <==> ts == Shape(f).0
  {
    Disjoint(f);
  }

  // A function with a fixed number of arguments takes no more of them.
  lemma Disjoint(f: Fn)
    requires IsFixed(f)
    ensures f !in TEXTS && f !in SOME_TEXTS
  {
  }

  lemma FixedShape(f: Fn)
    requires IsFixed(f)
    ensures !Shape(f).1 && Shape(f).0 != [] && TVUniv !in Shape(f).0 && TVUndef !in Shape(f).0
  {
  }

  lemma ShapeAccepts(f: Fn, ts: seq<TypeVal>)
    ensures TakesAll(Shape(f).0, Shape(f).1, ts) <==> Accepts(f, ts)
  {
    if IsFixed(f) {
      hide Shape, Accepts;
      FixedAccepts(f, ts);
      FixedShape(f);
      if TakesAll(Shape(f).0, false, ts) { SameTypes(Shape(f).0, ts); }
    } else {
      FreeAccepts(f, ts);
    }
  }

  lemma FreeAccepts(f: Fn, ts: seq<TypeVal>)
    requires !IsFixed(f)
    ensures TakesAll(Shape(f).0, Shape(f).1, ts) <==> Accepts(f, ts)
  {
  }

  lemma SameTypes(ps: seq<TypeVal>, ts: seq<TypeVal>)
    requires |ts| == |ps| && forall j | 0 <= j < |ts| :: Takes(ps[j], ts[j])
    ensures TVUniv !in ps ==> ts == ps
  {
    forall j | 0 <= j < |ts| && TVUniv !in ps ensures ts[j] == ps[j] {
      assert ps[j] in ps;
    }
  }

  lemma CallAccepted(f: Fn, args: seq<Expr>)
    requires Concrete(TypesOf(args))
    ensures ArgsTyped(SigOf(f), args, 0, args) <==> Accepts(f, TypesOf(args))
  {
    hide SigOf, Accepts, TakesAll, ArgsTyped, Shape;
    ShapeOfSig(f);
    ParamsAre(f, Shape(f).0, Shape(f).1);
    ShapeConcrete(f);
    ArgsTaken(SigOf(f), args);
    ShapeAccepts(f, TypesOf(args));
  }

  lemma ShapeConcrete(f: Fn)
    ensures
      var args := SigOf(f).args;
      args != [] && forall i | 0 <= i < |args| :: args[i].tval in {TVUniv, TVInt, TVString}
  {
    hide SigOf;
    ShapeOfSig(f);
    ParamsAre(f, Shape(f).0, Shape(f).1);
    var ps := Shape(f).0;
    assert ps == Params(SigOf(f)) && ps != [];
    assert forall i | 0 <= i < |ps| :: ps[i] in {TVUniv, TVInt, TVString};
  }

  // A call of a function that is no action has a type, text or truth, if and
  // only if its arguments are accepted; an action has none.
  lemma CallTyped(f: Fn, args: seq<Expr>, dt: Type)
    requires Concrete(TypesOf(args))
    ensures
      TypeOf(Call(f, args, dt)) ==
      if f in ACTIONS || !Accepts(f, TypesOf(args)) then TVUndef
      else if f == FLevelName || f == FString then TVString
      else TVBool
  {
    hide Accepts, ArgsTyped;
    CallAccepted(f, args);
    ReturnedType(f);
  }

  lemma ReturnedType(f: Fn)
    ensures SigOf(f).ret.tval == if f == FLevelName || f == FString then TVString else TVBool
  {
  }

  // ----- what the checker lets pass -----

  // The text of a literal; what is no literal has none.
  function TextOf(e: Expr): string {
    if e.Const? && e.v.StrV? then e.v.s else if e.Pattern? then e.text else ""
  }

  // The first argument of some functions is a level, or a file that can be run
  // or read.
  predicate FirstFits(k: Checks, f: Fn, a: Expr) {
    match f
    case FTrigger => a.Level? || (a.Var? && a.name in k.levelVars)
    case FLevelName => a.Level? || (a.Var? && a.name in k.levelVars)
    case FExec => k.executable(TextOf(a))
    case FPlugin => k.executable(TextOf(a))
    case FPayload => k.readable(TextOf(a))
    case _ => true
  }

  // No error is found in a call if and only if an action stands at the root,
  // the arguments are accepted and without errors of their own, the first one
  // fits, and set gives a variable a value of its type.
  lemma CallChecked(k: Checks, f: Fn, args: seq<Expr>, dt: Type, g: Scope, t: Type, root: bool)
    requires ScopeOk(g) && ParsedAll(args, g) && InSection(t)
    ensures
      var e := Call(f, args, dt);
      Errors(k, Annotate(e), DataType(Annotate(e)), t, root) == 0 <==>
      && (f in ACTIONS ==> root) && Accepts(f, TypesOf(args))
      && (args != [] ==> FirstFits(k, f, args[0])) && SpecialsAll(k, args)
      && (f == FSet ==> args[0].Var? && TypeOf(args[0]) == TypeOf(args[1]))
  {
    hide Accepts, ArgsTyped, Errors, Annotate;
    ArgsConcrete(args, g);
    CallErrorsExact(k, Call(f, args, dt), g, t, root);
    CallAccepted(f, args);
    if Accepts(f, TypesOf(args)) { FirstExact(k, f, args, dt); }
  }

  // No variable, and so no expression, has a type without values.
  lemma {:induction false} ParsedConcrete(e: Expr, g: Scope)
    requires ScopeOk(g) && Parsed(e, g)
    ensures TypeOf(e) in {TVUndef, TVInt, TVBool, TVString}
    decreases e
  {
    match e
    case Call(f, _, _) => ReturnedType(f);
    case Bin(_, l, _, _) => ParsedConcrete(l, g);
    case Un(_, r, _) => ParsedConcrete(r, g);
    case _ =>
  }

  lemma {:induction false} ArgsConcrete(args: seq<Expr>, g: Scope)
    requires ScopeOk(g) && ParsedAll(args, g)
    ensures Concrete(TypesOf(args))
    decreases args
  {
    if args != [] {
      ParsedConcrete(args[0], g);
      ArgsConcrete(args[1..], g);
      var ts := TypesOf(args);
      assert forall i | 0 < i < |ts| :: ts[i] == TypesOf(args[1..])[i - 1];
    }
  }

  lemma FirstExact(k: Checks, f: Fn, args: seq<Expr>, dt: Type)
    requires ArgsTyped(SigOf(f), args, 0, args)
    ensures Specials(k, Call(f, args, dt)) <==> (args != [] ==> FirstFits(k, f, args[0])) && SpecialsAll(k, args)
  {
    hide SpecialsAll, ArgTyped, SigOf;
    assert ArityOk(SigOf(f), |args|);
    if f in {FTrigger, FLevelName, FExec, FPlugin, FPayload} { FirstGiven(f); }
  }

  lemma FirstGiven(f: Fn)
    requires f in {FTrigger, FLevelName, FExec, FPlugin, FPayload}
    ensures !ArityOk(SigOf(f), 0)
  {
  }

  // Every parameter and section type is at ease with plain expressions and
  // with its own kind; MsgGraph is at ease with Msg and Graph.
  lemma SectionsExact(a: TypeExpr, b: TypeExpr)
    ensures
      IsTypeExprCompat(a, b) <==>
      || a == b || a in {TEUndef, TEExpr} || b in {TEUndef, TEExpr}
      || (a == TEMsgGraph && b in {TEMsg, TEGraph}) || (b == TEMsgGraph && a in {TEMsg, TEGraph})
  {
  }

  // ----- programs -----

  // An action the checker lets pass.
  predicate ActFits(k: Checks, e: Expr) {
    && e.Call? && e.fn in ACTIONS && Accepts(e.fn, TypesOf(e.args))
    && (e.args != [] ==> FirstFits(k, e.fn, e.args[0])) && SpecialsAll(k, e.args)
    && (e.fn == FSet ==> e.args[0].Var? && TypeOf(e.args[0]) == TypeOf(e.args[1]))
  }

  predicate RuleFits(k: Checks, r: Rule) {
    && TypeOf(r.expr) == TVBool && Specials(k, r.expr)
    && forall a | a in r.acts :: ActFits(k, a.what)
  }

  predicate SectionFits(k: Checks, s: Section) {
    s.id in {"Msg", "Graph", "MsgGraph", "External"} && forall r | r in s.rules :: RuleFits(k, r)
  }

  lemma ActExact(k: Checks, e: Expr, g: Scope)
    requires ScopeOk(g) && Parsed(e, g)
    ensures ActionTyped(e) && Specials(k, e) <==> ActFits(k, e)
  {
    hide Accepts, ArgsTyped, Specials, FirstFits;
    if e.Call? {
      ArgsConcrete(e.args, g);
      CallAccepted(e.fn, e.args);
      if ArgsTyped(SigOf(e.fn), e.args, 0, e.args) { FirstExact(k, e.fn, e.args, e.dt); }
    }
  }

  lemma RuleExact(k: Checks, r: Rule, g: Scope)
    requires ScopeOk(g) && RuleParsed(r, g)
    ensures RuleTyped(k, r) <==> RuleFits(k, r)
  {
    hide ActionTyped, Specials, ActFits, Parsed;
    forall a | a in r.acts ensures ActionTyped(a.what) && Specials(k, a.what) <==> ActFits(k, a.what) {
      ActExact(k, a.what, g);
    }
  }

  // A program is checked without an error if and only if its sections have one
  // of the four names, its triggers are truth values, and its actions are
  // calls of actions that pass.
  lemma ProgramChecked(k: Checks, ss: seq<Section>, g: Scope)
    requires ScopeOk(g) && ProgParsed(ss, g)
    ensures ProgErrors(k, AnnotateSections(ss)) == 0 <==> forall s | s in ss :: SectionFits(k, s)
  {
    hide ProgErrors, RuleTyped, RuleFits, RuleParsed;
    ProgErrorsExact(k, ss, g);
    forall s, r | s in ss && r in s.rules ensures RuleTyped(k, r) <==> RuleFits(k, r) {
      assert SectionParsed(s, g);
      RuleExact(k, r, g);
    }
    assert forall s | s in ss :: SectionTyped(k, s) <==> SectionFits(k, s);
  }

  // What a function is declared for makes no difference: the checker finds no
  // error in an expression in one section if and only if it finds none in any
  // other.
  lemma SectionIgnored(k: Checks, e: Expr, g: Scope, t: Type, other: Type, root: bool)
    requires ScopeOk(g) && Parsed(e, g) && InSection(t) && InSection(other) && (root ==> e.Call?)
    ensures
      Errors(k, Annotate(e), DataType(Annotate(e)), t, root) == 0 <==>
      Errors(k, Annotate(e), DataType(Annotate(e)), other, root) == 0
  {
    hide Errors, Annotate;
    if root {
      CallErrorsExact(k, e, g, t, root);
      CallErrorsExact(k, e, g, other, root);
    } else {
      ErrorsExact(k, e, g, t);
      ErrorsExact(k, e, g, other);
    }
  }

  // A query on the graph of the robot passes in a section of messages.
  lemma GraphQueryOnMessage(k: Checks)
    ensures
      var query := Call(FNodeCount, [Lit(IntV(1)), Lit(IntV(2))], FRESH_TYPE);
      var acts := [Act(Comma, Call(FAlert, [Lit(StrV("nodes"))], FRESH_TYPE))];
      ProgErrors(k, AnnotateSections([Section("Msg", [Rule(query, acts)])])) == 0
  {
    hide ProgErrors, AnnotateSections, RuleFits, RuleParsed;
    var query := Call(FNodeCount, [Lit(IntV(1)), Lit(IntV(2))], FRESH_TYPE);
    var r := Rule(query, [Act(Comma, Call(FAlert, [Lit(StrV("nodes"))], FRESH_TYPE))]);
    var ss := [Section("Msg", [r])];
    QueryRuleFits(k, r);
    assert forall s | s in ss :: s == ss[0];
    ProgramChecked(k, ss, map[]);
  }

  lemma QueryRuleFits(k: Checks, r: Rule)
    requires r.expr == Call(FNodeCount, [Lit(IntV(1)), Lit(IntV(2))], FRESH_TYPE)
    requires r.acts == [Act(Comma, Call(FAlert, [Lit(StrV("nodes"))], FRESH_TYPE))]
    ensures RuleFits(k, r) && RuleParsed(r, map[])
  {
    hide ActFits, Specials, TypeOf;
    QueryTyped(k, r.expr);
    AlertFits(k, r.acts[0].what);
  }

  lemma QueryTyped(k: Checks, e: Expr)
    requires e == Call(FNodeCount, [Lit(IntV(1)), Lit(IntV(2))], FRESH_TYPE)
    ensures TypeOf(e) == TVBool && Specials(k, e) && Parsed(e, map[])
  {
    var ints := e.args;
    assert ints[1..] == [Lit(IntV(2))] && ints[1..][1..] == [];
    assert TypesOf(ints) == [TVInt, TVInt];
    hide ArgsTyped;
    CallTyped(FNodeCount, ints, FRESH_TYPE);
    CallAccepted(FNodeCount, ints);
    FirstExact(k, FNodeCount, ints, FRESH_TYPE);
  }

  lemma AlertFits(k: Checks, e: Expr)
    requires e == Call(FAlert, [Lit(StrV("nodes"))], FRESH_TYPE)
    ensures ActFits(k, e) && Parsed(e, map[])
  {
    assert e.args[1..] == [];
    assert TypesOf(e.args) == [TVString];
  }
}
