// Programs as text: a well-formed program, printed, is parsed without an error
// into exactly its trees; and what the recovering parser lets pass without an
// error (parser/desc.go).
module Grammar {
  import opened Pratt
  import opened Printing
  import opened Descent

  datatype ActText = ActText(con: Word, what: Cst)

  datatype RuleText = RuleText(expr: Cst, first: Cst, more: seq<ActText>)

  datatype DeclText = DeclText(name: string, typ: string, value: Cst)

  datatype SectText =
    | LevelsText(levels: seq<LevelTree>)
    | DeclsText(kind: Kind, decls: seq<DeclText>)
    | RulesText(id: string, rules: seq<RuleText>)

  // ----- the tokens of a program, each part before what follows it -----

  function LevelTokens(ls: seq<LevelTree>, rest: seq<Tok>): seq<Tok> {
    if ls == [] then rest
    else
      var more := [TWord(KSemi)] + LevelTokens(ls[1..], rest);
      [TId(ls[0].name)] + if ls[0].soft then [TWord(KSoft)] + more else more
  }

  function DeclTokens(ds: seq<DeclText>, rest: seq<Tok>): seq<Tok> {
    if ds == [] then rest
    else
      var more := [TWord(KSemi)] + DeclTokens(ds[1..], rest);
      [TId(ds[0].name)] + ([TId(ds[0].typ)] + ([TAsig] + (Tokens(ds[0].value) + more)))
  }

  function ActTokens(acts: seq<ActText>, rest: seq<Tok>): seq<Tok> {
    if acts == [] then rest
    else [TWord(acts[0].con)] + (Tokens(acts[0].what) + ActTokens(acts[1..], rest))
  }

  function RuleTokens(rs: seq<RuleText>, rest: seq<Tok>): seq<Tok> {
    if rs == [] then rest
    else
      var more := [TWord(KSemi)] + RuleTokens(rs[1..], rest);
      Tokens(rs[0].expr) + ([TWord(KQuest)] + (Tokens(rs[0].first) + ActTokens(rs[0].more, more)))
  }

  function SectWord(x: SectText): Word {
    match x
    case LevelsText(_) => KLevels
    case DeclsText(AConst, _) => KConsts
    case DeclsText(AVar, _) => KVars
    case RulesText(_, _) => KRules
  }

  function BodyTokens(x: SectText, rest: seq<Tok>): seq<Tok> {
    match x
    case LevelsText(ls) => LevelTokens(ls, rest)
    case DeclsText(_, ds) => DeclTokens(ds, rest)
    case RulesText(_, rs) => RuleTokens(rs, rest)
  }

  function SectTokens(x: SectText, rest: seq<Tok>): seq<Tok> {
    var body := [TWord(KColon)] + BodyTokens(x, rest);
    [TWord(SectWord(x))] + if x.RulesText? then [TId(x.id)] + body else body
  }

  function ProgTokens(xs: seq<SectText>): seq<Tok> {
    if xs == [] then [] else SectTokens(xs[0], ProgTokens(xs[1..]))
  }

  // ----- the trees of a program -----

  function DeclTrees(kind: Kind, ds: seq<DeclText>): seq<DeclTree> {
    if ds == [] then []
    else [DeclTree(kind, ds[0].name, ds[0].typ, Strip(ds[0].value))] + DeclTrees(kind, ds[1..])
  }

  function Actions(acts: seq<ActText>): seq<Action> {
    if acts == [] then [] else [Action(acts[0].con, Strip(acts[0].what))] + Actions(acts[1..])
  }

  // The first action of a rule carries a comma.
  function RuleOf(r: RuleText): RuleTree {
    RuleTree(Strip(r.expr), [Action(KComma, Strip(r.first))] + Actions(r.more))
  }

  function Rules(rs: seq<RuleText>): seq<RuleTree> {
    if rs == [] then [] else [RuleOf(rs[0])] + Rules(rs[1..])
  }

  function AddSect(p: Program, x: SectText): Program {
    match x
    case LevelsText(ls) => p.(levels := p.levels + ls)
    case DeclsText(kind, ds) => p.(decls := p.decls + DeclTrees(kind, ds))
    case RulesText(id, rs) => p.(sects := p.sects + [SectTree(id, Rules(rs))])
  }

  function AddSects(p: Program, xs: seq<SectText>): Program
    decreases xs
  {
    if xs == [] then p else AddSects(AddSect(p, xs[0]), xs[1..])
  }

  // ----- well-formed programs -----

  predicate Known(envs: seq<set<string>>, c: Cst) {
    forall i | 0 <= i < |Tokens(c)| :: Tokens(c)[i].TId? ==> Declared(envs, Tokens(c)[i].name)
  }

  predicate ExprFits(envs: seq<set<string>>, c: Cst) {
    Proper(c) && Known(envs, c)
  }

  predicate LevelsFit(envs: seq<set<string>>, ls: seq<LevelTree>)
    requires envs != []
    decreases ls
  {
    ls == [] || (ls[0].name !in envs[|envs| - 1] && LevelsFit(Declare(envs, ls[0].name), ls[1..]))
  }

  predicate DeclsFit(envs: seq<set<string>>, ds: seq<DeclText>)
    requires envs != []
    decreases ds
  {
    ds == [] ||
    var envs' := Declare(envs, ds[0].name);
    !Declared(envs, ds[0].name) && IsTypeName(ds[0].typ) && ExprFits(envs', ds[0].value) && DeclsFit(envs', ds[1..])
  }

  predicate ActsFit(envs: seq<set<string>>, acts: seq<ActText>) {
    acts == [] || (acts[0].con in CONNECTORS && ExprFits(envs, acts[0].what) && ActsFit(envs, acts[1..]))
  }

  // The environment of a rule holds the name of the rule.
  predicate RulesFit(envs: seq<set<string>>, rs: seq<RuleText>) {
    !Declared(envs, CURR_RULE) && EachRuleFits(envs + [{CURR_RULE}], rs)
  }

  predicate EachRuleFits(inner: seq<set<string>>, rs: seq<RuleText>) {
    rs == [] || (RuleFits(inner, rs[0]) && EachRuleFits(inner, rs[1..]))
  }

  predicate RuleFits(inner: seq<set<string>>, r: RuleText) {
    ExprFits(inner, r.expr) && ExprFits(inner, r.first) && ActsFit(inner, r.more)
  }

  function DeclareAll(envs: seq<set<string>>, names: seq<string>): (r: seq<set<string>>)
    requires envs != []
    ensures r != []
    decreases names
  {
    if names == [] then envs else DeclareAll(Declare(envs, names[0]), names[1..])
  }

  function LevelNames(ls: seq<LevelTree>): seq<string> {
    if ls == [] then [] else [ls[0].name] + LevelNames(ls[1..])
  }

  function DeclNames(ds: seq<DeclText>): seq<string> {
    if ds == [] then [] else [ds[0].name] + DeclNames(ds[1..])
  }

  function EnvsAfter(envs: seq<set<string>>, x: SectText): (r: seq<set<string>>)
    requires envs != []
    ensures r != []
  {
    match x
    case LevelsText(ls) => DeclareAll(envs, LevelNames(ls))
    case DeclsText(_, ds) => DeclareAll(envs, DeclNames(ds))
    case RulesText(id, _) => Declare(envs, id)
  }

  // Names are declared once and before they are used; a levels section leaves
  // the program with levels.
  predicate SectFits(envs: seq<set<string>>, p: Program, x: SectText)
    requires envs != []
  {
    match x
    case LevelsText(ls) => LevelsFit(envs, ls) && p.levels + ls != []
    case DeclsText(_, ds) => DeclsFit(envs, ds)
    case RulesText(id, rs) => id !in envs[|envs| - 1] && RulesFit(Declare(envs, id), rs)
  }

  predicate ProgFits(envs: seq<set<string>>, p: Program, xs: seq<SectText>)
    requires envs != []
    decreases xs
  {
    xs == [] || (SectFits(envs, p, xs[0]) && ProgFits(EnvsAfter(envs, xs[0]), AddSect(p, xs[0]), xs[1..]))
  }

  // ----- a well-formed program is parsed -----

  // Where a section ends.
  predicate AtEnd(ts: seq<Tok>) {
    ts == [] || AtWord(ts, SECTIONS)
  }

  lemma {:induction false} KnownNames(n: Names, read: seq<Tok>)
    requires n.envs != [] && n.errs < MAX_ERRORS
    requires forall i | 0 <= i < |read| :: read[i].TId? ==> Declared(n.envs, read[i].name)
    ensures LookUp(n, read) == Go(n)
    decreases read
  {
    if read != [] { KnownNames(n, read[1..]); }
  }

  lemma ExprRead(s: State, c: Cst, rest: seq<Tok>)
    requires Ready(s) && s.ahead == Tokens(c) + rest && ExprFits(s.envs, c)
    requires rest == [] || rest[0].TWord? || rest[0].TRPar?
    ensures ReadExpr(s) == Go(Good(s.(ahead := rest), Strip(c)))
  {
    TightAnyway(c, -1);
    ParseExact(s.ahead, -1, c, rest);
    assert Descent.Read(s.ahead, rest) == Tokens(c);
    KnownNames(Names(s.errs, s.envs), Tokens(c));
  }

  lemma LevelRestStep(s: State, name: string, soft: bool, more: seq<Tok>)
    requires Ready(s) && s.ahead == if soft then [TWord(KSoft)] + ([TWord(KSemi)] + more) else [TWord(KSemi)] + more
    ensures LevelRest(s, name) == LevelDecls(
      s.(ahead := more, prog := s.prog.(levels := s.prog.levels + [LevelTree(name, soft)])))
  {
  }

  lemma LevelStep(s: State, l: LevelTree, tail: seq<Tok>, more: seq<Tok>)
    requires Ready(s) && l.name !in s.envs[|s.envs| - 1] && s.ahead == [TId(l.name)] + tail
    requires tail == if l.soft then [TWord(KSoft)] + ([TWord(KSemi)] + more) else [TWord(KSemi)] + more
    ensures LevelDecls(s) == LevelDecls(
      State(more, s.errs, Declare(s.envs, l.name), s.prog.(levels := s.prog.levels + [l])))
  {
    LevelNamed(s, l.name, tail);
    LevelRestStep(s.(ahead := tail, envs := Declare(s.envs, l.name)), l.name, l.soft, more);
  }

  lemma LevelNamed(s: State, name: string, tail: seq<Tok>)
    requires Ready(s) && name !in s.envs[|s.envs| - 1] && s.ahead == [TId(name)] + tail
    ensures LevelDecls(s) == LevelRest(s.(ahead := tail, envs := Declare(s.envs, name)), name)
  {
    assert s.ahead[1..] == tail;
  }

  lemma {:induction false} LevelsParsed(s: State, ls: seq<LevelTree>, rest: seq<Tok>)
    requires Ready(s) && LevelsFit(s.envs, ls) && s.ahead == LevelTokens(ls, rest) && AtEnd(rest)
    ensures LevelDecls(s) == Go(End(
      State(rest, s.errs, DeclareAll(s.envs, LevelNames(ls)), s.prog.(levels := s.prog.levels + ls)), false))
    decreases ls
  {
    if ls == [] {
      assert s.prog.levels + ls == s.prog.levels;
    } else {
      var more, levels := LevelTokens(ls[1..], rest), s.prog.levels + [ls[0]];
      assert levels + ls[1..] == s.prog.levels + ls;
      LevelStep(s, ls[0], s.ahead[1..], more);
      LevelsParsed(State(more, s.errs, Declare(s.envs, ls[0].name), s.prog.(levels := levels)), ls[1..], rest);
    }
  }

  lemma DeclExprStep(s: State, kind: Kind, d: DeclText, more: seq<Tok>)
    requires Ready(s) && ExprFits(s.envs, d.value) && s.ahead == Tokens(d.value) + ([TWord(KSemi)] + more)
    ensures DeclExpr(s, kind, d.name, d.typ) == Decls(
      s.(ahead := more, prog := s.prog.(decls := s.prog.decls + [DeclTree(kind, d.name, d.typ, Strip(d.value))])), kind)
  {
    ExprRead(s, d.value, [TWord(KSemi)] + more);
  }

  lemma DeclStep(s: State, kind: Kind, d: DeclText, value: seq<Tok>)
    requires Ready(s) && !Declared(s.envs, d.name) && IsTypeName(d.typ)
    requires s.ahead == [TId(d.name)] + ([TId(d.typ)] + ([TAsig] + value))
    ensures Decls(s, kind) == DeclExpr(s.(ahead := value, envs := Declare(s.envs, d.name)), kind, d.name, d.typ)
  {
    assert Decls(s, kind) == DeclValue(s.(ahead := [TAsig] + value), kind, d.name, d.typ);
  }

  lemma {:induction false} DeclsParsed(s: State, kind: Kind, ds: seq<DeclText>, rest: seq<Tok>)
    requires Ready(s) && DeclsFit(s.envs, ds) && s.ahead == DeclTokens(ds, rest) && AtEnd(rest)
    ensures Decls(s, kind) == Go(End(
      State(rest, s.errs, DeclareAll(s.envs, DeclNames(ds)),
            s.prog.(decls := s.prog.decls + DeclTrees(kind, ds))), false))
    decreases ds
  {
    if ds == [] {
      assert s.prog.decls + [] == s.prog.decls;
    } else {
      var d, more := ds[0], DeclTokens(ds[1..], rest);
      var decls := s.prog.decls + [DeclTree(kind, d.name, d.typ, Strip(d.value))];
      OneDecl(s, kind, d, more);
      DeclsConcat(s.prog.decls, kind, ds);
      DeclsParsed(State(more, s.errs, Declare(s.envs, d.name), s.prog.(decls := decls)), kind, ds[1..], rest);
    }
  }

  lemma OneDecl(s: State, kind: Kind, d: DeclText, more: seq<Tok>)
    requires Ready(s) && !Declared(s.envs, d.name) && IsTypeName(d.typ) && ExprFits(Declare(s.envs, d.name), d.value)
    requires s.ahead == [TId(d.name)] + ([TId(d.typ)] + ([TAsig] + (Tokens(d.value) + ([TWord(KSemi)] + more))))
    ensures Decls(s, kind) == Decls(
      State(more, s.errs, Declare(s.envs, d.name),
            s.prog.(decls := s.prog.decls + [DeclTree(kind, d.name, d.typ, Strip(d.value))])), kind)
  {
    var s1 := s.(ahead := Tokens(d.value) + ([TWord(KSemi)] + more), envs := Declare(s.envs, d.name));
    DeclStep(s, kind, d, s1.ahead);
    DeclExprStep(s1, kind, d, more);
  }

  lemma DeclsConcat(before: seq<DeclTree>, kind: Kind, ds: seq<DeclText>)
    requires ds != []
    ensures (before + [DeclTree(kind, ds[0].name, ds[0].typ, Strip(ds[0].value))]) + DeclTrees(kind, ds[1..])
      == before + DeclTrees(kind, ds)
  {
  }

  // ----- rules -----

  // A rule at the end of the last section.
  function WithRule(p: Program, r: RuleTree): Program
    requires p.sects != []
  {
    var n := |p.sects| - 1;
    p.(sects := p.sects[n := p.sects[n].(rules := p.sects[n].rules + [r])])
  }

  lemma AddedAction(p: Program, r: RuleTree, a: Action)
    requires p.sects != []
    ensures AddAction(WithRule(p, r), a) == WithRule(p, r.(acts := r.acts + [a]))
  {
    var n := |p.sects| - 1;
    var rules := p.sects[n].rules;
    assert (rules + [r])[|rules| := r.(acts := r.acts + [a])] == rules + [r.(acts := r.acts + [a])];
  }

  lemma RulerStep(s: State, con: Word, what: Cst, next: seq<Tok>, p: Program, r: RuleTree)
    requires Ready(s) && ExprFits(s.envs, what) && s.ahead == Tokens(what) + next
    requires p.sects != [] && s.prog == WithRule(p, r) && AtWord(next, CONNECTORS + {KSemi})
    ensures
      var s1 := s.(ahead := next, prog := WithRule(p, r.(acts := r.acts + [Action(con, Strip(what))])));
      Ruler(s, con) == if AtWord(next, {KSemi}) then Go(End(s1, false)) else Ruler(Advance(s1), next[0].word)
  {
    TokensStart(what);
    ExprRead(s, what, next);
    AddedAction(p, r, Action(con, Strip(what)));
  }

  lemma {:induction false} RulerParsed(s: State, con: Word, what: Cst, more: seq<ActText>, p: Program, r: RuleTree,
                                       end: seq<Tok>)
    requires Ready(s) && ExprFits(s.envs, what) && ActsFit(s.envs, more) && At(end, TWord(KSemi))
    requires s.ahead == Tokens(what) + ActTokens(more, end)
    requires p.sects != [] && s.prog == WithRule(p, r)
    ensures
      var acts := r.acts + ([Action(con, Strip(what))] + Actions(more));
      Ruler(s, con) == Go(End(s.(ahead := end, prog := WithRule(p, r.(acts := acts))), false))
    decreases more
  {
    RulerStep(s, con, what, ActTokens(more, end), p, r);
    var r' := r.(acts := r.acts + [Action(con, Strip(what))]);
    MoreActions(r.acts, Action(con, Strip(what)), more);
    if more != [] {
      var next := Tokens(more[0].what) + ActTokens(more[1..], end);
      RulerParsed(s.(ahead := next, prog := WithRule(p, r')), more[0].con, more[0].what, more[1..], p, r', end);
    }
  }

  lemma MoreActions(acts: seq<Action>, a: Action, more: seq<ActText>)
    ensures (acts + [a]) + Actions(more) == acts + ([a] + Actions(more))
    ensures more == [] ==> acts + ([a] + Actions(more)) == acts + [a]
  {
  }

  lemma RuleRestStep(s: State, envs: seq<set<string>>, r: RuleText, p: Program, more: seq<Tok>)
    requires Ready(s) && Inner(envs, s) && ExprFits(s.envs, r.first) && ActsFit(s.envs, r.more)
    requires p.sects != [] && s.prog == WithRule(p, RuleTree(Strip(r.expr), []))
    requires s.ahead == [TWord(KQuest)] + (Tokens(r.first) + ActTokens(r.more, [TWord(KSemi)] + more))
    ensures RuleRest(s, envs) == ActionDecls(State(more, s.errs, envs, WithRule(p, RuleOf(r))))
  {
    var rule := RuleTree(Strip(r.expr), []);
    RulerParsed(s.(ahead := s.ahead[1..]), KComma, r.first, r.more, p, rule, [TWord(KSemi)] + more);
    assert rule.acts + ([Action(KComma, Strip(r.first))] + Actions(r.more)) == RuleOf(r).acts;
  }

  lemma InRule(envs: seq<set<string>>)
    requires envs != [] && !Declared(envs, CURR_RULE)
    ensures !Declared(envs + [{}], CURR_RULE) && Declare(envs + [{}], CURR_RULE) == envs + [{CURR_RULE}]
  {
    var none: set<string> := {};
    assert none + {CURR_RULE} == {CURR_RULE};
    assert (envs + [none])[|envs| := {CURR_RULE}] == envs + [{CURR_RULE}];
  }

  lemma RuleStep(s: State, r: RuleText, more: seq<Tok>)
    requires Ready(s) && !Declared(s.envs, CURR_RULE) && s.prog.sects != []
    requires RuleFits(s.envs + [{CURR_RULE}], r)
    requires s.ahead == RuleTokens([r], more)
    ensures ActionDecls(s) == ActionDecls(s.(ahead := more, prog := WithRule(s.prog, RuleOf(r))))
  {
    InRule(s.envs);
    var s1 := s.(envs := s.envs + [{CURR_RULE}]);
    var next := [TWord(KQuest)] + (Tokens(r.first) + ActTokens(r.more, [TWord(KSemi)] + more));
    assert [r][1..] == [] && s.ahead == Tokens(r.expr) + next;
    TokensStart(r.expr);
    ExprRead(s1, r.expr, next);
    var s2 := s1.(ahead := next, prog := WithRule(s.prog, RuleTree(Strip(r.expr), [])));
    assert ActionDecls(s) == RuleExpr(s1, s.envs) == RuleRest(s2, s.envs);
    RuleRestStep(s2, s.envs, r, s.prog, more);
  }

  function WithRules(p: Program, rs: seq<RuleTree>): Program
    requires p.sects != []
  {
    var n := |p.sects| - 1;
    p.(sects := p.sects[n := p.sects[n].(rules := p.sects[n].rules + rs)])
  }

  lemma WithMoreRules(p: Program, r: RuleTree, rs: seq<RuleTree>)
    requires p.sects != []
    ensures WithRules(WithRule(p, r), rs) == WithRules(p, [r] + rs)
    ensures WithRules(p, []) == p
  {
    var n := |p.sects| - 1;
    assert (p.sects[n].rules + [r]) + rs == p.sects[n].rules + ([r] + rs);
    assert p.sects[n].rules + [] == p.sects[n].rules;
  }

  lemma {:induction false} RulesParsed(s: State, rs: seq<RuleText>, rest: seq<Tok>)
    requires Ready(s) && RulesFit(s.envs, rs) && s.ahead == RuleTokens(rs, rest) && AtEnd(rest)
    requires s.prog.sects != []
    ensures ActionDecls(s) == Go(End(s.(ahead := rest, prog := WithRules(s.prog, Rules(rs))), false))
    decreases rs
  {
    if rs == [] {
      InRule(s.envs);
      WithMoreRules(s.prog, RuleTree(Leaf(TAsig), []), []);
      assert (s.envs + [{CURR_RULE}])[..|s.envs|] == s.envs;
    } else {
      var more := RuleTokens(rs[1..], rest);
      assert [rs[0]][1..] == [];
      RuleStep(s, rs[0], more);
      WithMoreRules(s.prog, RuleOf(rs[0]), Rules(rs[1..]));
      RulesParsed(s.(ahead := more, prog := WithRule(s.prog, RuleOf(rs[0]))), rs[1..], rest);
    }
  }

  // ----- programs -----

  lemma SectionParsed(s: State, x: SectText, rest: seq<Tok>)
    requires Ready(s) && SectFits(s.envs, s.prog, x) && AtEnd(rest) && s.ahead == BodyTokens(x, rest)
    ensures Section(s, SectWord(x), if x.RulesText? then x.id else "") ==
      Go(End(State(rest, s.errs, EnvsAfter(s.envs, x), AddSect(s.prog, x)), false))
  {
    match x
    case LevelsText(ls) => LevelsParsed(s, ls, rest);
    case DeclsText(kind, ds) => DeclsParsed(s, kind, ds, rest);
    case RulesText(id, rs) => RuleSectParsed(s, id, rs, rest);
  }

  lemma RuleSectParsed(s: State, id: string, rs: seq<RuleText>, rest: seq<Tok>)
    requires Ready(s) && id !in s.envs[|s.envs| - 1] && RulesFit(Declare(s.envs, id), rs)
    requires AtEnd(rest) && s.ahead == RuleTokens(rs, rest)
    ensures RuleSect(s, id) == Go(End(
      State(rest, s.errs, Declare(s.envs, id), s.prog.(sects := s.prog.sects + [SectTree(id, Rules(rs))])), false))
  {
    var s1 := s.(envs := Declare(s.envs, id), prog := s.prog.(sects := s.prog.sects + [SectTree(id, [])]));
    RulesParsed(s1, rs, rest);
    NewSection(s.prog, id, Rules(rs));
  }

  lemma NewSection(p: Program, id: string, rs: seq<RuleTree>)
    ensures WithRules(p.(sects := p.sects + [SectTree(id, [])]), rs) == p.(sects := p.sects + [SectTree(id, rs)])
  {
    var none: seq<RuleTree> := [];
    assert none + rs == rs;
    assert (p.sects + [SectTree(id, none)])[|p.sects| := SectTree(id, rs)] == p.sects + [SectTree(id, rs)];
  }

  lemma ProgStep(s: State, x: SectText, rest: seq<Tok>)
    requires Ready(s) && SectFits(s.envs, s.prog, x) && AtEnd(rest) && s.ahead == SectTokens(x, rest)
    ensures Prog(s) == Prog(State(rest, s.errs, EnvsAfter(s.envs, x), AddSect(s.prog, x)))
  {
    var s1 := s.(ahead := BodyTokens(x, rest));
    SectionParsed(s1, x, rest);
    var id := if x.RulesText? then x.id else "";
    HeadStep(s, SectWord(x), id, s1.ahead);
    ColonStep(s1, SectWord(x), id);
  }

  lemma HeadStep(s: State, sect: Word, id: string, body: seq<Tok>)
    requires Ready(s) && sect in SECTIONS && (sect != KRules ==> id == "")
    requires s.ahead == [TWord(sect)] +
      if sect == KRules then [TId(id)] + ([TWord(KColon)] + body) else [TWord(KColon)] + body
    ensures Prog(s) == SectionAndRest(s.(ahead := [TWord(KColon)] + body), sect, id)
  {
    var colon := [TWord(KColon)] + body;
    assert s.ahead[1..] == if sect == KRules then [TId(id)] + colon else colon;
    if sect == KRules { assert s.ahead[1..][1..] == colon; }
  }

  lemma ColonStep(s: State, sect: Word, id: string)
    requires Ready(s) && sect in SECTIONS && Section(s, sect, id).Go? && !Section(s, sect, id).value.failed
    ensures SectionAndRest(s.(ahead := [TWord(KColon)] + s.ahead), sect, id) == Prog(Section(s, sect, id).value.s)
  {
    var colon := s.(ahead := [TWord(KColon)] + s.ahead);
    assert Demand(colon, true) == Go(s);
  }

  // The text of a well-formed program is parsed without an error, to the end,
  // into the trees of the program.
  lemma {:induction false} ProgramRoundTrip(s: State, xs: seq<SectText>)
    requires Ready(s) && ProgFits(s.envs, s.prog, xs) && s.ahead == ProgTokens(xs)
    ensures Prog(s) == Go(End(State([], s.errs, EnvsAfterAll(s.envs, xs), AddSects(s.prog, xs)), false))
    decreases xs
  {
    if xs != [] {
      var x, rest := xs[0], ProgTokens(xs[1..]);
      ProgStep(s, x, rest);
      ProgramRoundTrip(State(rest, s.errs, EnvsAfter(s.envs, x), AddSect(s.prog, x)), xs[1..]);
    }
  }

  function EnvsAfterAll(envs: seq<set<string>>, xs: seq<SectText>): seq<set<string>>
    requires envs != []
    decreases xs
  {
    if xs == [] then envs else EnvsAfterAll(EnvsAfter(envs, xs[0]), xs[1..])
  }

  // ----- what passes without an error -----

  predicate Skippable(junk: seq<Tok>, stops: set<Word>) {
    forall i | 0 <= i < |junk| :: !IsError(junk[i]) && (junk[i].TWord? ==> junk[i].word !in stops)
  }

  lemma {:induction false} Skipped(junk: seq<Tok>, rest: seq<Tok>, stops: set<Word>)
    requires Skippable(junk, stops)
    ensures Skip(junk + rest, stops) == Skip(rest, stops)
    decreases junk
  {
    if junk == [] {
      assert junk + rest == rest;
    } else {
      assert (junk + rest)[0] == junk[0] && (junk + rest)[1..] == junk[1..] + rest;
      Skipped(junk[1..], rest, stops);
    }
  }

  // Whatever stands between the last action of a rule and its semicolon, up
  // to a connector or a section, is dropped without an error, unless it can
  // continue the action.
  lemma JunkAfterAction(s: State, con: Word, what: Cst, junk: seq<Tok>, rest: seq<Tok>)
    requires Ready(s) && ExprFits(s.envs, what)
    requires s.ahead == Tokens(what) + (junk + ([TWord(KSemi)] + rest))
    requires Skippable(junk, CONNECTORS + SECTIONS + {KSemi}) && (junk != [] ==> junk[0].TWord? || junk[0].TRPar?)
    ensures Ruler(s, con) == Ruler(s.(ahead := Tokens(what) + ([TWord(KSemi)] + rest)), con)
    ensures Ruler(s, con).Go? && Ruler(s, con).value.s.errs == s.errs
  {
    var end := [TWord(KSemi)] + rest;
    TokensStart(what);
    if junk == [] {
      assert junk + end == end;
    } else {
      ExprRead(s, what, junk + end);
    }
    ExprRead(s.(ahead := Tokens(what) + end), what, end);
    var s1 := s.(prog := AddAction(s.prog, Action(con, Strip(what))));
    JunkSkipped(s1, junk, end);
    assert Ruler(s, con) == NextAction(s1.(ahead := junk + end));
    assert Ruler(s.(ahead := Tokens(what) + end), con) == NextAction(s1.(ahead := end));
  }

  // A literal, a name or an equals sign there is an error, which is counted.
  lemma AtomAfterAction(s: State, con: Word, what: Cst, t: Tok, rest: seq<Tok>)
    requires Ready(s) && ExprFits(s.envs, what) && IsAtom(t)
    requires s.ahead == Tokens(what) + ([t] + rest)
    ensures Ruler(s, con).Go? ==> Ruler(s, con).value.s.errs > s.errs
  {
    var end := [t] + rest;
    TokensStart(what);
    TightAnyway(what, -1);
    AtomStops(what, end, -1);
    assert Descent.Read(s.ahead, end) == Tokens(what);
    KnownNames(Names(s.errs, s.envs), Tokens(what));
    assert ReadExpr(s) == Go(Bad(s.(ahead := end)));
  }

  lemma JunkSkipped(s: State, junk: seq<Tok>, end: seq<Tok>)
    requires Ready(s) && At(end, TWord(KSemi)) && Skippable(junk, CONNECTORS + SECTIONS + {KSemi})
    ensures NextAction(s.(ahead := junk + end)) == NextAction(s.(ahead := end)) == Go(End(s.(ahead := end), false))
  {
    Skipped(junk, end, CONNECTORS + SECTIONS + {KSemi});
    if junk == [] { assert junk + end == end; }
  }

  // A section of rules without a name is dropped as a whole, without an error.
  lemma UnnamedSectionLost(s: State, junk: seq<Tok>, rest: seq<Tok>)
    requires Ready(s) && s.ahead == [TWord(KRules)] + (junk + rest) && AtEnd(rest)
    requires Skippable(junk, SECTIONS) && (junk != [] ==> !junk[0].TId?)
    ensures Prog(s) == Prog(s.(ahead := rest))
  {
    Skipped(junk, rest, SECTIONS);
    if junk == [] { assert junk + rest == rest; }
    var s1 := s.(ahead := junk + rest);
    assert s.ahead[1..] == s1.ahead && !AtError(s1.ahead) && !AtId(s1.ahead);
    assert SkipSection(s1) == End(s.(ahead := rest), false);
  }

  // In a section of declarations, whatever does not start with a name is
  // dropped up to the next semicolon, without an error.
  lemma JunkDeclLost(s: State, kind: Kind, junk: seq<Tok>, rest: seq<Tok>)
    requires Ready(s) && s.ahead == junk + ([TWord(KSemi)] + rest)
    requires Skippable(junk, SECTIONS + {KSemi}) && (junk != [] ==> !junk[0].TId?)
    ensures Decls(s, kind) == Decls(s.(ahead := rest), kind)
  {
    var end := [TWord(KSemi)] + rest;
    assert {} + SECTIONS + {KSemi} == SECTIONS + {KSemi};
    Skipped(junk, end, {} + SECTIONS + {KSemi});
    if junk == [] { assert junk + end == end; }
  }
}
