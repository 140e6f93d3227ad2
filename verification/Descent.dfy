// The recursive descent parser with its error recovery (parser/desc.go), as
// functions on what is ahead, the errors so far, the environments and the
// program.  The methods of module Parsing are proved against these functions.
module Descent {
  import opened Pratt
  import opened Printing

  const MAX_ERRORS := 10
  const CURR_RULE := "CurrRule"

  // Abort is the panic after too many errors.
  datatype Outcome<T> = Abort | Go(value: T) {
    predicate IsFailure() {
      Abort?
    }

    function PropagateFailure<U>(): Outcome<U>
      requires Abort?
    {
      Abort
    }

    function Extract(): T
      requires Go?
    {
      value
    }
  }

  datatype Kind = AConst | AVar

  datatype Action = Action(con: Word, what: Ast)

  datatype RuleTree = RuleTree(expr: Ast, acts: seq<Action>)

  datatype SectTree = SectTree(id: string, rules: seq<RuleTree>)

  datatype LevelTree = LevelTree(name: string, soft: bool)

  datatype DeclTree = DeclTree(kind: Kind, name: string, typ: string, value: Ast)

  datatype Program = Program(levels: seq<LevelTree>, decls: seq<DeclTree>, sects: seq<SectTree>)

  // envs holds the names declared in each environment, innermost last.
  datatype State = State(ahead: seq<Tok>, errs: nat, envs: seq<set<string>>, prog: Program)

  // What a parsing function leaves, and whether it reports an error.
  datatype End = End(s: State, failed: bool)

  predicate Ready(s: State) {
    s.envs != [] && s.errs < MAX_ERRORS
  }

  // ----- environments and errors -----

  predicate Declared(envs: seq<set<string>>, name: string) {
    exists i | 0 <= i < |envs| :: name in envs[i]
  }

  function Declare(envs: seq<set<string>>, name: string): seq<set<string>>
    requires envs != []
  {
    envs[|envs| - 1 := envs[|envs| - 1] + {name}]
  }

  function Error(s: State): (r: Outcome<State>)
    requires Ready(s)
    ensures r.Go? ==> Ready(r.value) && r.value == s.(errs := s.errs + 1)
  {
    if s.errs + 1 >= MAX_ERRORS then Abort else Go(s.(errs := s.errs + 1))
  }

  // The errors so far and the environments.
  datatype Names = Names(errs: nat, envs: seq<set<string>>)

  // Every name read is looked up; one that is not declared costs an error and
  // is declared, so that it costs no other.
  function LookUp(n: Names, read: seq<Tok>): (r: Outcome<Names>)
    requires n.envs != [] && n.errs < MAX_ERRORS
    ensures r.Go? ==> n.errs <= r.value.errs < MAX_ERRORS && Below(n.envs, r.value.envs)
    decreases read
  {
    if read == [] then Go(n)
    else if !read[0].TId? || Declared(n.envs, read[0].name) then LookUp(n, read[1..])
    else if n.errs + 1 >= MAX_ERRORS then Abort
    else LookUp(Names(n.errs + 1, Declare(n.envs, read[0].name)), read[1..])
  }

  // The environments below the innermost are the same, and that one has only
  // grown.
  predicate Below(envs: seq<set<string>>, envs': seq<set<string>>) {
    && |envs| == |envs'| > 0
    && envs[..|envs| - 1] == envs'[..|envs| - 1]
    && envs[|envs| - 1] <= envs'[|envs| - 1]
  }

  function Read(from: seq<Tok>, to: seq<Tok>): seq<Tok>
    requires |to| <= |from|
  {
    from[..|from| - |to|]
  }

  // After taking the tokens up to some point, with their names looked up.
  function MoveTo(s: State, rest: seq<Tok>): (r: Outcome<State>)
    requires Ready(s) && |rest| <= |s.ahead|
    ensures r.Go? ==> Kept(s, r.value) && r.value.ahead == rest && r.value.prog == s.prog
  {
    var n :- LookUp(Names(s.errs, s.envs), Read(s.ahead, rest));
    Go(State(rest, n.errs, n.envs, s.prog))
  }

  // What a parsing function leaves is ready, further on, with no fewer errors.
  predicate Kept(s: State, s': State) {
    Ready(s') && |s'.ahead| <= |s.ahead| && s.errs <= s'.errs && Below(s.envs, s'.envs)
  }

  datatype Parsed = Good(s: State, a: Ast) | Bad(s: State)

  // An expression, with the names in it looked up.
  function ReadExpr(s: State): (r: Outcome<Parsed>)
    requires Ready(s)
    ensures r.Go? ==> Kept(s, r.value.s) && r.value.s.prog == s.prog
    ensures r.Go? && (r.value.Good? || (s.ahead != [] && IsExprTok(s.ahead[0]))) ==> |r.value.s.ahead| < |s.ahead|
  {
    var e := Expr(s.ahead, -1);
    var s1 :- MoveTo(s, e.rest);
    Go(if e.Ok? then Good(s1, Strip(e.c)) else Bad(s1))
  }

  // ----- recovery -----

  const SECTIONS := {KLevels, KVars, KConsts, KRules}

  // Where skipping stops: a token looked for, the end, or an error.
  datatype Stop = OnWord(w: Word) | OnEof | OnError

  function Skip(ts: seq<Tok>, stops: set<Word>): (r: (seq<Tok>, Stop))
    ensures |r.0| <= |ts|
    ensures r.1.OnWord? ==> At(r.0, TWord(r.1.w)) && r.1.w in stops
    ensures r.1.OnEof? ==> r.0 == []
  {
    if ts == [] then (ts, OnEof)
    else if IsError(ts[0]) then (Drop(ts), OnError)
    else if ts[0].TWord? && ts[0].word in stops then (ts, OnWord(ts[0].word))
    else Skip(ts[1..], stops)
  }

  // Skip to a section, a semicolon or one of the given words; a semicolon is
  // taken.
  function Sync(s: State, stops: set<Word>): (r: (State, Stop))
    requires Ready(s)
    ensures Ready(r.0) && r.0 == s.(ahead := r.0.ahead) && |r.0.ahead| <= |s.ahead|
  {
    var (ts, stop) := Skip(s.ahead, stops + SECTIONS + {KSemi});
    (s.(ahead := if stop == OnWord(KSemi) then ts[1..] else ts), stop)
  }

  function SyncNoSemi(s: State, stops: set<Word>): (r: (State, Stop))
    requires Ready(s)
    ensures Ready(r.0) && r.0 == s.(ahead := r.0.ahead) && |r.0.ahead| <= |s.ahead|
  {
    var (ts, stop) := Skip(s.ahead, stops + SECTIONS + {KSemi});
    (s.(ahead := ts), stop)
  }

  function SkipSection(s: State): (r: End)
    requires Ready(s)
    ensures Ready(r.s) && r.s == s.(ahead := r.s.ahead) && |r.s.ahead| <= |s.ahead|
  {
    var (ts, stop) := Skip(s.ahead, SECTIONS);
    End(s.(ahead := ts), stop.OnError?)
  }

  // After looking at what is ahead.
  function Peeked(s: State): (r: State)
    ensures r == s.(ahead := r.ahead) && |r.ahead| <= |s.ahead|
  {
    if AtError(s.ahead) then s.(ahead := Drop(s.ahead)) else s
  }

  function Advance(s: State): (r: State)
    requires s.ahead != []
    ensures r == s.(ahead := r.ahead) && |r.ahead| < |s.ahead|
  {
    s.(ahead := s.ahead[1..])
  }

  predicate AtId(ts: seq<Tok>) {
    ts != [] && ts[0].TId?
  }

  predicate AtWord(ts: seq<Tok>, ws: set<Word>) {
    ts != [] && ts[0].TWord? && ts[0].word in ws
  }

  // A token that has to be there; otherwise an error, and recovery.
  function Demand(s: State, there: bool): (r: Outcome<State>)
    requires Ready(s) && (there ==> s.ahead != [])
    ensures r.Go? ==> Ready(r.value) && r.value.envs == s.envs && r.value.prog == s.prog
    ensures r.Go? ==> |r.value.ahead| <= |s.ahead| && s.errs <= r.value.errs
    ensures r.Go? ==> if there then r.value == Advance(s) else r.value.errs == s.errs + 1
  {
    if there then Go(Advance(s))
    else
      var s1 :- Error(Peeked(s));
      Go(Sync(s1, {}).0)
  }

  // ----- sections -----

  function LevelDecls(s: State): (r: Outcome<End>)
    requires Ready(s)
    ensures r.Go? ==> Kept(s, r.value.s)
    decreases |s.ahead|, MAX_ERRORS - s.errs, 0
  {
    if AtError(s.ahead) then
      var s1 :- Error(Peeked(s));
      LevelDecls(Sync(s1, {}).0)
    else if !AtId(s.ahead) then Go(End(s, false))
    else
      var name := s.ahead[0].name;
      var s1 := Advance(s);
      if name in s.envs[|s.envs| - 1] then
        var s2 :- Error(s1);
        var (s3, stop) := Sync(s2, {});
        if stop.OnError? then Go(End(s3, true)) else LevelDecls(s3)
      else
        LevelRest(s1.(envs := Declare(s1.envs, name)), name)
  }

  // After the name of a new level.
  function LevelRest(s: State, name: string): (r: Outcome<End>)
    requires Ready(s)
    ensures r.Go? ==> Kept(s, r.value.s)
    decreases |s.ahead|, MAX_ERRORS - s.errs, 1
  {
    var soft := AtWord(s.ahead, {KSoft});
    var s1 := Peeked(s);
    var s2 := if soft then Advance(s1) else s1;
    var s3 := s2.(prog := s2.prog.(levels := s2.prog.levels + [LevelTree(name, soft)]));
    var s4 :- Demand(s3, At(s3.ahead, TWord(KSemi)));
    LevelDecls(s4)
  }

  predicate IsTypeName(name: string) {
    name in {"int", "float", "bool", "string"}
  }

  // A name that shadows none; otherwise an error, and the declaration goes to
  // a symbol without a name.
  function DeclareNew(s: State, name: string): (r: Outcome<State>)
    requires Ready(s)
    ensures r.Go? ==> Kept(s, r.value) && r.value.ahead == s.ahead && r.value.prog == s.prog
  {
    if Declared(s.envs, name) then Error(s) else Go(s.(envs := Declare(s.envs, name)))
  }

  // Constants and variables.
  function Decls(s: State, kind: Kind): (r: Outcome<End>)
    requires Ready(s)
    ensures r.Go? ==> Kept(s, r.value.s)
    decreases |s.ahead|, MAX_ERRORS - s.errs, 0
  {
    if !AtId(s.ahead) then
      var s1 := Peeked(s);
      if AtError(s1.ahead) then Go(End(Peeked(s1), true))
      else if s1.ahead == [] || AtWord(s1.ahead, SECTIONS) then Go(End(s1, false))
      else
        var (s2, stop) := Sync(s1, {});
        SyncMoves(s1);
        if AtError(s.ahead) || stop.OnEof? then Go(End(s2, true)) else Decls(s2, kind)
    else
      var name := s.ahead[0].name;
      var s1 := Advance(s);
      var s2 :- Demand(s1, AtId(s1.ahead));
      if !AtId(s1.ahead) then
        var s3 := if Declared(s2.envs, name) then s2 else s2.(envs := Declare(s2.envs, name));
        Decls(Sync(s3, {}).0, kind)
      else
        DeclValue(s2, kind, name, s1.ahead[0].name)
  }

  lemma SyncMoves(s: State)
    requires Ready(s) && s.ahead != [] && !IsError(s.ahead[0]) && !AtWord(s.ahead, SECTIONS)
    ensures |Sync(s, {}).0.ahead| < |s.ahead|
  {
  }

  // The rest of a declaration, after its name and its type.
  function DeclValue(s: State, kind: Kind, name: string, typ: string): (r: Outcome<End>)
    requires Ready(s)
    ensures r.Go? ==> Kept(s, r.value.s)
    decreases |s.ahead|, MAX_ERRORS - s.errs, 1
  {
    var s1 :- if IsTypeName(typ) then Go(s) else Error(s);
    var s2 :- DeclareNew(s1, name);
    var s3 :- Demand(s2, At(s2.ahead, TAsig));
    if !At(s2.ahead, TAsig) then Decls(s3, kind)
    else DeclExpr(s3, kind, if Declared(s1.envs, name) then "lit" else name, typ)
  }

  function DeclExpr(s: State, kind: Kind, name: string, typ: string): (r: Outcome<End>)
    requires Ready(s)
    ensures r.Go? ==> Kept(s, r.value.s)
    decreases |s.ahead|, MAX_ERRORS - s.errs, 1
  {
    var e :- ReadExpr(s);
    if e.Bad? then
      var s1 :- Error(e.s);
      var (s2, stop) := Sync(s1, {});
      if stop != OnWord(KSemi) then Go(End(s2, stop.OnError?)) else Decls(s2, kind)
    else
      var s1 := e.s.(prog := e.s.prog.(decls := e.s.prog.decls + [DeclTree(kind, name, typ, e.a)]));
      var s2 :- Demand(s1, At(s1.ahead, TWord(KSemi)));
      Decls(s2, kind)
  }

  // ----- rules -----

  function AddRule(p: Program, e: Ast): Program {
    if p.sects == [] then p
    else
      var n := |p.sects| - 1;
      p.(sects := p.sects[n := p.sects[n].(rules := p.sects[n].rules + [RuleTree(e, [])])])
  }

  function AddAction(p: Program, a: Action): Program {
    if p.sects == [] || p.sects[|p.sects| - 1].rules == [] then p
    else
      var n := |p.sects| - 1;
      var rules := p.sects[n].rules;
      var m := |rules| - 1;
      p.(sects := p.sects[n := p.sects[n].(rules := rules[m := rules[m].(acts := rules[m].acts + [a])])])
  }

  const CONNECTORS := {KThen, KNThen, KComma}

  // The actions of a rule.  What follows an action up to a connector, a
  // semicolon or a section is skipped without an error.
  function Ruler(s: State, con: Word): (r: Outcome<End>)
    requires Ready(s)
    ensures r.Go? ==> Kept(s, r.value.s)
    decreases |s.ahead|, 0
  {
    if AtError(s.ahead) then Go(End(Peeked(s), true))
    else if s.ahead == [] || !IsExprTok(s.ahead[0]) then
      var s1 :- Error(s);
      Go(End(s1, true))
    else
      var e :- ReadExpr(s);
      if e.Bad? then
        var s1 :- Error(e.s);
        var (s2, stop) := SyncNoSemi(s1, {KThen, KNThen});
        Go(End(s2, stop.OnError?))
      else
        NextAction(e.s.(prog := AddAction(e.s.prog, Action(con, e.a))))
  }

  // After an action: a connector, at once or after something skipped.
  function NextAction(s: State): (r: Outcome<End>)
    requires Ready(s)
    ensures r.Go? ==> Kept(s, r.value.s)
    decreases |s.ahead|, 1
  {
    if AtError(s.ahead) then Go(End(Peeked(s), true))
    else
      var (s1, stop) := if AtWord(s.ahead, CONNECTORS) then (s, OnWord(s.ahead[0].word)) else SyncNoSemi(s, CONNECTORS);
      if !AtWord(s1.ahead, CONNECTORS) || stop.OnError? then Go(End(s1, stop.OnError?))
      else Ruler(Advance(s1), s1.ahead[0].word)
  }

  function Push(s: State): (r: State)
    requires Ready(s)
    ensures Ready(r) && Inner(s.envs, r) && r.ahead == s.ahead && r.errs == s.errs
  {
    s.(envs := s.envs + [{}])
  }

  function Pop(s: State, ghost envs: seq<set<string>>): (r: State)
    requires Ready(s) && Inner(envs, s)
    ensures Ready(r) && r.envs == envs && r.ahead == s.ahead && r.errs == s.errs
  {
    s.(envs := s.envs[..|s.envs| - 1])
  }

  // Inside the environment of a rule.
  predicate Inner(envs: seq<set<string>>, s: State) {
    envs != [] && |s.envs| == |envs| + 1 && s.envs[..|envs|] == envs
  }

  lemma StillInner(envs: seq<set<string>>, s: State, s': State)
    requires Inner(envs, s) && Below(s.envs, s'.envs)
    ensures Inner(envs, s')
  {
  }

  // Rules.  Each has an environment of its own, with the name of the rule in
  // it.
  function ActionDecls(s: State): (r: Outcome<End>)
    requires Ready(s)
    ensures r.Go? ==> Kept(s, r.value.s) && r.value.s.envs == s.envs
    decreases |s.ahead|, 1
  {
    var s1 :- DeclareNew(Push(s), CURR_RULE);
    StillInner(s.envs, Push(s), s1);
    if AtError(s1.ahead) then
      var (s2, stop) := Sync(Pop(Peeked(s1), s.envs), {});
      Go(End(s2, stop.OnError?))
    else if s1.ahead == [] || !IsExprTok(s1.ahead[0]) then Go(End(Pop(s1, s.envs), false))
    else RuleExpr(s1, s.envs)
  }

  // From the expression of a rule on.
  function RuleExpr(s: State, ghost envs: seq<set<string>>): (r: Outcome<End>)
    requires Ready(s) && Inner(envs, s) && s.ahead != [] && IsExprTok(s.ahead[0])
    ensures r.Go? ==> Ready(r.value.s) && |r.value.s.ahead| <= |s.ahead| && s.errs <= r.value.s.errs
    ensures r.Go? ==> r.value.s.envs == envs
    decreases |s.ahead|, 0
  {
    var e :- ReadExpr(s);
    StillInner(envs, s, e.s);
    if e.Bad? then
      var s1 :- Error(Pop(e.s, envs));
      ActionDecls(Sync(s1, {KQuest}).0)
    else
      RuleRest(e.s.(prog := AddRule(e.s.prog, e.a)), envs)
  }

  // From the question mark on.
  function RuleRest(s: State, ghost envs: seq<set<string>>): (r: Outcome<End>)
    requires Ready(s) && Inner(envs, s)
    ensures r.Go? ==> Ready(r.value.s) && |r.value.s.ahead| <= |s.ahead| && s.errs <= r.value.s.errs
    ensures r.Go? ==> r.value.s.envs == envs
    decreases |s.ahead|, 2
  {
    var s1 :- Demand(s, At(s.ahead, TWord(KQuest)));
    if !At(s.ahead, TWord(KQuest)) then ActionDecls(Pop(s1, envs))
    else
      var end :- Ruler(s1, KComma);
      StillInner(envs, s1, end.s);
      if end.failed then
        var s2 :- Error(end.s);
        var (s3, stop) := Sync(Pop(s2, envs), {KQuest});
        Go(End(s3, stop.OnError?))
      else
        var s2 :- Demand(end.s, At(end.s.ahead, TWord(KSemi)));
        ActionDecls(Pop(s2, envs))
  }

  function RuleSect(s: State, id: string): (r: Outcome<End>)
    requires Ready(s)
    ensures r.Go? ==> Kept(s, r.value.s)
  {
    if id in s.envs[|s.envs| - 1] then
      var s1 :- Error(s);
      var s2 :- Error(s1);
      Go(SkipSection(s2))
    else
      ActionDecls(s.(envs := Declare(s.envs, id), prog := s.prog.(sects := s.prog.sects + [SectTree(id, [])])))
  }

  // ----- programs -----

  function Prog(s: State): (r: Outcome<End>)
    requires Ready(s)
    ensures r.Go? ==> Kept(s, r.value.s)
    decreases |s.ahead|, 0
  {
    if AtError(s.ahead) then Go(End(Peeked(s), true))
    else if s.ahead == [] then Go(End(s, false))
    else if !AtWord(s.ahead, SECTIONS) then
      var s1 :- Error(s);
      Go(SkipSection(s1))
    else
      var sect := s.ahead[0].word;
      var s1 := Advance(s);
      if sect == KRules && !AtId(s1.ahead) then Prog(SkipSection(Peeked(s1)).s)
      else
        var id := if sect == KRules then s1.ahead[0].name else "";
        SectionAndRest(if sect == KRules then Advance(s1) else s1, sect, id)
  }

  // From the colon on.
  function SectionAndRest(s: State, sect: Word, id: string): (r: Outcome<End>)
    requires Ready(s) && sect in SECTIONS
    ensures r.Go? ==> Kept(s, r.value.s)
    decreases |s.ahead|, 1
  {
    var s1 :- Demand(s, At(s.ahead, TWord(KColon)));
    if !At(s.ahead, TWord(KColon)) then Go(End(s1, false))
    else
      var end :- Section(s1, sect, id);
      if end.failed then
        var s2 :- Error(end.s);
        Go(SkipSection(s2))
      else Prog(end.s)
  }

  function Section(s: State, sect: Word, id: string): (r: Outcome<End>)
    requires Ready(s) && sect in SECTIONS
    ensures r.Go? ==> Kept(s, r.value.s)
  {
    match sect
    case KLevels =>
      var end :- LevelDecls(s);
      if end.s.prog.levels != [] then Go(end)
      else
        var s1 :- Error(end.s);
        Go(End(s1, end.failed))
    case KConsts => Decls(s, AConst)
    case KVars => Decls(s, AVar)
    case _ => RuleSect(s, id)
  }
}
