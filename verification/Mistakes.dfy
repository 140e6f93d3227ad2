// What the parser reports (parser/desc.go): for each kind of mistake the
// errors it costs, where parsing goes on, and when it is given up.
module Mistakes {
  import opened Pratt
  import opened Printing
  import opened Descent
  import opened Grammar

  // ----- names -----

  predicate IsDeclared(envs: seq<set<string>>, name: string) {
    exists env | env in envs :: name in env
  }

  // The names among the tokens that are not declared.
  function Unknown(envs: seq<set<string>>, read: seq<Tok>): set<string> {
    set t | t in read && t.TId? && !IsDeclared(envs, t.name) :: t.name
  }

  // Names declared in the innermost environment.
  function WithNames(envs: seq<set<string>>, names: set<string>): (r: seq<set<string>>)
    requires envs != []
    ensures r != []
  {
    envs[..|envs| - 1] + [envs[|envs| - 1] + names]
  }

  lemma DeclaredIs(envs: seq<set<string>>, name: string)
    ensures Declared(envs, name) <==> IsDeclared(envs, name)
  {
    forall env | env in envs && name in env ensures Declared(envs, name) {
      var i :| 0 <= i < |envs| && envs[i] == env;
    }
  }

  lemma DeclaredMore(envs: seq<set<string>>, names: set<string>, x: string)
    requires envs != []
    ensures IsDeclared(WithNames(envs, names), x) <==> IsDeclared(envs, x) || x in names
  {
    var envs' := WithNames(envs, names);
    DeclaredIs(envs, x);
    DeclaredIs(envs', x);
    var n := |envs| - 1;
    assert envs'[n] == envs[n] + names && forall i | 0 <= i < n :: envs'[i] == envs[i];
    if i :| 0 <= i < |envs| && x in envs[i] { assert x in envs'[i]; }
    if x in names { assert x in envs'[n]; }
  }

  // The names not declared, once the first token has been looked up.
  lemma UnknownRest(envs: seq<set<string>>, read: seq<Tok>)
    requires envs != [] && read != []
    ensures
      var all := Unknown(envs, read);
      if read[0].TId? && !IsDeclared(envs, read[0].name) then
        var rest := Unknown(WithNames(envs, {read[0].name}), read[1..]);
        all == rest + {read[0].name} && read[0].name !in rest && |all| == |rest| + 1
      else all == Unknown(envs, read[1..])
  {
    assert read == [read[0]] + read[1..];
    if read[0].TId? && !IsDeclared(envs, read[0].name) {
      var x := read[0].name;
      var rest := Unknown(WithNames(envs, {x}), read[1..]);
      forall t | t in read && t.TId?
        ensures !IsDeclared(envs, t.name) <==> t.name == x || !IsDeclared(WithNames(envs, {x}), t.name)
      {
        DeclaredMore(envs, {x}, t.name);
      }
      DeclaredMore(envs, {x}, x);
      assert Unknown(envs, read) == rest + {x};
    }
  }

  lemma WithNamesTwice(envs: seq<set<string>>, a: set<string>, b: set<string>)
    requires envs != []
    ensures WithNames(WithNames(envs, a), b) == WithNames(envs, b + a)
    ensures WithNames(envs, {}) == envs
  {
    var n := |envs| - 1;
    var env := envs[n];
    var envs' := WithNames(envs, a);
    assert |envs'| == n + 1 && envs'[..n] == envs[..n] && envs'[n] == env + a;
    assert env + (b + a) == env + a + b && env + {} == env;
    assert envs == envs[..n] + [env];
  }

  lemma DeclareIs(envs: seq<set<string>>, x: string)
    requires envs != []
    ensures Declare(envs, x) == WithNames(envs, {x})
  {
  }

  // Each name that is not declared costs one error, however often it stands
  // there, and is declared from then on.
  lemma {:induction false} NamesCounted(n: Names, read: seq<Tok>)
    requires n.envs != [] && n.errs < 10
    ensures LookUp(n, read) == Counted(n, Unknown(n.envs, read))
    decreases read
  {
    hide Unknown, IsDeclared, Declared, WithNames, Declare;
    WithNamesTwice(n.envs, {}, {});
    if read == [] {
      assert Unknown(n.envs, read) == {} by { NothingUnknown(n.envs); }
    } else {
      UnknownRest(n.envs, read);
      if read[0].TId? { DeclaredIs(n.envs, read[0].name); }
      if read[0].TId? && !IsDeclared(n.envs, read[0].name) {
        var x := read[0].name;
        var envs := WithNames(n.envs, {x});
        var rest := Unknown(envs, read[1..]);
        WithNamesTwice(n.envs, {x}, rest);
        DeclareIs(n.envs, x);
        if n.errs + 1 < 10 { NamesCounted(Names(n.errs + 1, envs), read[1..]); }
      } else {
        NamesCounted(n, read[1..]);
      }
    }
  }

  lemma NothingUnknown(envs: seq<set<string>>)
    ensures Unknown(envs, []) == {}
  {
  }

  // The tenth error ends the parse.
  function Counted(n: Names, names: set<string>): Outcome<Names>
    requires n.envs != []
  {
    if n.errs + |names| >= 10 then Abort else Go(Names(n.errs + |names|, WithNames(n.envs, names)))
  }

  // An expression, before something that ends it.
  lemma ExprCounted(s: State, c: Cst, rest: seq<Tok>)
    requires Ready(s) && s.ahead == Tokens(c) + rest && Proper(c)
    requires rest == [] || rest[0].TWord? || rest[0].TRPar?
    ensures
      ReadExpr(s) ==
      match Counted(Names(s.errs, s.envs), Unknown(s.envs, Tokens(c)))
      case Abort => Abort
      case Go(n) => Go(Good(State(rest, n.errs, n.envs, s.prog), Strip(c)))
  {
    hide Unknown, LookUp;
    TightAnyway(c, -1);
    ParseExact(s.ahead, -1, c, rest);
    assert Descent.Read(s.ahead, rest) == Tokens(c);
    NamesCounted(Names(s.errs, s.envs), Tokens(c));
  }

  // ----- declarations -----

  const TYPE_NAMES := {"int", "float", "bool", "string"}

  // What a declaration leaves: an unknown type costs an error, a name that is
  // declared already costs one, and so does each unknown name in its value.
  function DeclCost(envs: seq<set<string>>, d: DeclText): nat
    requires envs != []
  {
    var known := IsDeclared(envs, d.name);
    (if d.typ in TYPE_NAMES then 0 else 1) + (if known then 1 else 0)
    + |Unknown(if known then envs else WithNames(envs, {d.name}), Tokens(d.value))|
  }

  function DeclEnvs(envs: seq<set<string>>, d: DeclText): seq<set<string>>
    requires envs != []
  {
    var envs1 := if IsDeclared(envs, d.name) then envs else WithNames(envs, {d.name});
    WithNames(envs1, Unknown(envs1, Tokens(d.value)))
  }

  // A name declared before is not declared again: its value goes to a symbol
  // without a name.
  function DeclLeft(s: State, kind: Kind, d: DeclText): DeclTree {
    DeclTree(kind, if IsDeclared(s.envs, d.name) then "lit" else d.name, d.typ, Strip(d.value))
  }

  lemma ValueCounted(s: State, kind: Kind, name: string, d: DeclText, more: seq<Tok>)
    requires Ready(s) && Proper(d.value) && s.ahead == Tokens(d.value) + ([TWord(KSemi)] + more)
    ensures
      var unknown := Unknown(s.envs, Tokens(d.value));
      DeclExpr(s, kind, name, d.typ) ==
      if s.errs + |unknown| >= 10 then Abort
      else
        Decls(State(more, s.errs + |unknown|, WithNames(s.envs, unknown),
                    s.prog.(decls := s.prog.decls + [DeclTree(kind, name, d.typ, Strip(d.value))])), kind)
  {
    hide Unknown, WithNames, ReadExpr, Decls, Tokens, Strip, Proper;
    ExprCounted(s, d.value, [TWord(KSemi)] + more);
    assert ([TWord(KSemi)] + more)[1..] == more;
  }

  lemma DeclCounted(s: State, kind: Kind, d: DeclText, more: seq<Tok>)
    requires Ready(s) && Proper(d.value)
    requires s.ahead == [TId(d.name)] + ([TId(d.typ)] + ([TAsig] + (Tokens(d.value) + ([TWord(KSemi)] + more))))
    ensures
      Decls(s, kind) ==
      if s.errs + DeclCost(s.envs, d) >= 10 then Abort
      else
        Decls(State(more, s.errs + DeclCost(s.envs, d), DeclEnvs(s.envs, d),
                    s.prog.(decls := s.prog.decls + [DeclLeft(s, kind, d)])), kind)
  {
    hide Unknown, WithNames, IsDeclared, Declared, Declare, DeclExpr, Decls, Tokens, Strip, Proper;
    var value := Tokens(d.value) + ([TWord(KSemi)] + more);
    DeclaredIs(s.envs, d.name);
    DeclareIs(s.envs, d.name);
    DeclStarts(s, kind, d, value);
    var e := s.errs + (if d.typ in TYPE_NAMES then 0 else 1) + (if IsDeclared(s.envs, d.name) then 1 else 0);
    var envs := if IsDeclared(s.envs, d.name) then s.envs else WithNames(s.envs, {d.name});
    if e < 10 {
      ValueCounted(State(value, e, envs, s.prog), kind, DeclLeft(s, kind, d).name, d, more);
    }
  }

  lemma DeclStarts(s: State, kind: Kind, d: DeclText, value: seq<Tok>)
    requires Ready(s) && s.ahead == [TId(d.name)] + ([TId(d.typ)] + ([TAsig] + value))
    ensures
      var known := Declared(s.envs, d.name);
      var e := s.errs + (if d.typ in TYPE_NAMES then 0 else 1) + (if known then 1 else 0);
      Decls(s, kind) ==
      if e >= 10 then Abort
      else
        DeclExpr(State(value, e, if known then s.envs else Declare(s.envs, d.name), s.prog), kind,
                 if known then "lit" else d.name, d.typ)
  {
    hide Declared, Declare, DeclExpr;
    assert Decls(s, kind) == DeclValue(s.(ahead := [TAsig] + value), kind, d.name, d.typ);
  }

  // ----- what is left out or stands there twice -----

  // Tokens without an error, a semicolon or the start of a section.
  predicate Junk(ts: seq<Tok>) {
    forall t | t in ts :: !IsError(t) && !(t.TWord? && t.word in {KLevels, KVars, KConsts, KRules, KSemi})
  }

  lemma {:induction false} JunkSkipped(junk: seq<Tok>, more: seq<Tok>, stops: set<Word>)
    requires Junk(junk) && stops <= {KLevels, KVars, KConsts, KRules, KSemi}
    ensures Skip(junk + more, stops) == Skip(more, stops)
    decreases junk
  {
    if junk == [] {
      assert junk + more == more;
    } else {
      assert junk[0] in junk && (junk + more)[0] == junk[0] && (junk + more)[1..] == junk[1..] + more;
      JunkSkipped(junk[1..], more, stops);
    }
  }

  lemma SyncsBehind(s: State, junk: seq<Tok>, more: seq<Tok>)
    requires Ready(s) && Junk(junk) && s.ahead == junk + ([TWord(KSemi)] + more)
    ensures Sync(s, {}) == (s.(ahead := more), OnWord(KSemi))
  {
    JunkSkipped(junk, [TWord(KSemi)] + more, {} + SECTIONS + {KSemi});
    assert ([TWord(KSemi)] + more)[1..] == more;
  }

  // One error, and parsing goes on behind the next semicolon.
  function Behind(s: State, more: seq<Tok>): State {
    s.(errs := s.errs + 1, ahead := more)
  }

  lemma Missed(s: State, junk: seq<Tok>, more: seq<Tok>)
    requires Ready(s) && Junk(junk) && s.ahead == junk + ([TWord(KSemi)] + more)
    ensures Demand(s, false) == if s.errs + 1 >= 10 then Abort else Go(Behind(s, more))
  {
    assert !AtError(s.ahead) by {
      if junk != [] { assert s.ahead[0] == junk[0]; }
    }
    if s.errs + 1 < 10 { SyncsBehind(s.(errs := s.errs + 1), junk, more); }
  }

  lemma LevelTwice(s: State, name: string, junk: seq<Tok>, more: seq<Tok>)
    requires Ready(s) && Junk(junk) && s.ahead == [TId(name)] + (junk + ([TWord(KSemi)] + more))
    requires name in s.envs[|s.envs| - 1]
    ensures LevelDecls(s) == if s.errs + 1 >= 10 then Abort else LevelDecls(Behind(s, more))
  {
    hide LevelDecls;
    var tail := junk + ([TWord(KSemi)] + more);
    LevelRefused(s, name, tail);
    if s.errs + 1 < 10 { SyncsBehind(s.(errs := s.errs + 1, ahead := tail), junk, more); }
  }

  lemma LevelRefused(s: State, name: string, tail: seq<Tok>)
    requires Ready(s) && s.ahead == [TId(name)] + tail && name in s.envs[|s.envs| - 1]
    ensures
      LevelDecls(s) ==
      if s.errs + 1 >= 10 then Abort
      else
        var (s1, stop) := Sync(s.(errs := s.errs + 1, ahead := tail), {});
        if stop.OnError? then Go(End(s1, true)) else LevelDecls(s1)
  {
    hide Kept, Below, LevelRest, Skip, Drop, Demand;
    var s1 := s.(errs := s.errs + 1, ahead := tail);
    assert Advance(s) == s.(ahead := tail);
    assert s1.errs < 10 ==> Error(s.(ahead := tail)) == Go(s1);
  }

  lemma LevelWithoutSemi(s: State, name: string, junk: seq<Tok>, more: seq<Tok>)
    requires Ready(s) && name !in s.envs[|s.envs| - 1] && junk != [] && junk[0] != TWord(KSoft) && Junk(junk)
    requires s.ahead == [TId(name)] + (junk + ([TWord(KSemi)] + more))
    ensures
      var s1 := s.(envs := Declare(s.envs, name), prog := s.prog.(levels := s.prog.levels + [LevelTree(name, false)]));
      LevelDecls(s) == if s.errs + 1 >= 10 then Abort else LevelDecls(Behind(s1, more))
  {
    hide LevelDecls, LevelRest, Demand;
    var tail := junk + ([TWord(KSemi)] + more);
    var s1 := s.(ahead := tail, envs := Declare(s.envs, name));
    var s2 := s1.(prog := s1.prog.(levels := s1.prog.levels + [LevelTree(name, false)]));
    LevelNamed(s, name, tail);
    assert tail[0] == junk[0] && junk[0] in junk;
    HardLevel(s1, name);
    Missed(s2, junk, more);
  }

  lemma HardLevel(s: State, name: string)
    requires Ready(s) && s.ahead != [] && !IsError(s.ahead[0]) && s.ahead[0] !in [TWord(KSoft), TWord(KSemi)]
    ensures
      LevelRest(s, name) ==
      match Demand(s.(prog := s.prog.(levels := s.prog.levels + [LevelTree(name, false)])), false)
      case Abort => Abort
      case Go(s1) => LevelDecls(s1)
  {
    hide LevelDecls, Demand;
  }

  // A levels section that leaves the program without levels.
  lemma NoLevels(s: State)
    requires Ready(s) && s.prog.levels == [] && AtEnd(s.ahead)
    ensures Section(s, KLevels, "") == if s.errs + 1 >= 10 then Abort else Go(End(s.(errs := s.errs + 1), false))
  {
  }

  // A declaration without a value.
  lemma NoValue(s: State, kind: Kind, name: string, typ: string, junk: seq<Tok>, more: seq<Tok>)
    requires Ready(s) && typ in TYPE_NAMES && !Declared(s.envs, name)
    requires Junk(junk) && s.ahead == junk + ([TWord(KSemi)] + more) && (junk != [] ==> junk[0] != TAsig)
    ensures
      DeclValue(s, kind, name, typ) ==
      if s.errs + 1 >= 10 then Abort else Decls(Behind(s.(envs := Declare(s.envs, name)), more), kind)
  {
    hide Decls, Declared;
    assert !At(s.ahead, TAsig) by {
      if junk != [] { assert s.ahead[0] == junk[0]; }
    }
    Missed(s.(envs := Declare(s.envs, name)), junk, more);
  }

  // The rules of a section with a name that is taken cost two errors, and all
  // of them are dropped.
  lemma SectionTwice(s: State, id: string, junk: seq<Tok>, rest: seq<Tok>)
    requires Ready(s) && id in s.envs[|s.envs| - 1]
    requires Junk(junk) && s.ahead == junk + rest && AtEnd(rest)
    ensures RuleSect(s, id) == if s.errs + 2 >= 10 then Abort else Go(End(s.(errs := s.errs + 2, ahead := rest), false))
  {
    JunkSkipped(junk, rest, SECTIONS);
  }

  // A rule without a question mark is dropped, but for its trigger.
  lemma NoQuestionMark(s: State, envs: seq<set<string>>, junk: seq<Tok>, more: seq<Tok>)
    requires Ready(s) && Inner(envs, s) && Junk(junk) && s.ahead == junk + ([TWord(KSemi)] + more)
    requires junk != [] ==> junk[0] != TWord(KQuest)
    ensures
      RuleRest(s, envs) == if s.errs + 1 >= 10 then Abort else ActionDecls(Behind(s, more).(envs := envs))
  {
    hide ActionDecls;
    assert !At(s.ahead, TWord(KQuest)) by {
      if junk != [] { assert s.ahead[0] == junk[0]; }
    }
    Missed(s, junk, more);
  }

  // A section without a colon ends the parse, with what comes after it unread.
  lemma NoColon(s: State, sect: Word, id: string, junk: seq<Tok>, more: seq<Tok>)
    requires Ready(s) && sect in SECTIONS && Junk(junk) && s.ahead == junk + ([TWord(KSemi)] + more)
    requires junk != [] ==> junk[0] != TWord(KColon)
    ensures SectionAndRest(s, sect, id) == if s.errs + 1 >= 10 then Abort else Go(End(Behind(s, more), false))
  {
    assert !At(s.ahead, TWord(KColon)) by {
      if junk != [] { assert s.ahead[0] == junk[0]; }
    }
    Missed(s, junk, more);
  }

  // What is no section where one should start costs one error, and is skipped
  // up to a section, at which the parse ends.
  lemma NoSection(s: State, junk: seq<Tok>, rest: seq<Tok>)
    requires Ready(s) && Junk(junk) && junk != [] && s.ahead == junk + rest && AtEnd(rest)
    ensures
      Descent.Prog(s) ==
      if s.errs + 1 >= 10 then Abort else Go(End(s.(errs := s.errs + 1, ahead := rest), false))
  {
    var s1 := s.(errs := s.errs + 1);
    NoSectionEnds(s, junk[0]);
    if s1.errs < 10 { JunkEnds(s1, junk, rest); }
  }

  lemma NoSectionEnds(s: State, t: Tok)
    requires Ready(s) && s.ahead != [] && s.ahead[0] == t && !IsError(t) && !(t.TWord? && t.word in SECTIONS)
    ensures
      Descent.Prog(s) == if s.errs + 1 >= 10 then Abort else Go(SkipSection(s.(errs := s.errs + 1)))
  {
    hide SkipSection, SectionAndRest, Section, Kept, Below, Drop;
  }

  lemma JunkEnds(s: State, junk: seq<Tok>, rest: seq<Tok>)
    requires Ready(s) && Junk(junk) && s.ahead == junk + rest && AtEnd(rest)
    ensures SkipSection(s) == End(s.(ahead := rest), false)
  {
    JunkSkipped(junk, rest, SECTIONS);
    AtEndStops(rest);
  }

  lemma AtEndStops(rest: seq<Tok>)
    requires AtEnd(rest)
    ensures Skip(rest, SECTIONS) == (rest, if rest == [] then OnEof else OnWord(rest[0].word))
  {
  }
}
