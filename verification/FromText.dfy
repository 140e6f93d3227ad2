// From the characters of a program to its trees: the tokens that the parser
// (parser/desc.go) gets from the lexer (lex/lex.go), and programs as text.
module FromText {
  import opened Types
  import opened Lexing
  import opened Lexemes
  import P = Pratt
  import opened Descent
  import opened Grammar
  import opened WholeParse

  type Tok = P.Tok

  // ----- what the parser sees of a token -----

  function TokOf(t: Token): Tok {
    match t.kind
    case KId => P.TId(t.lexeme)
    case KKeyword => if t.lexeme == "true" || t.lexeme == "false" then P.TLit(t.lexeme) else KeywordOf(t.lexeme)
    case KSymbol(s) => SymbolOf(s)
    case _ => P.TLit(t.lexeme)
  }

  function KeywordOf(s: string): Tok {
    P.TWord(
      if s == "levels" then P.KLevels else if s == "vars" then P.KVars
      else if s == "consts" then P.KConsts else if s == "rules" then P.KRules else P.KSoft)
  }

  function SymbolOf(s: string): Tok {
    if s == ")" then P.TRPar else if s == "=" then P.TAsig
    else if s in ["," , ";", ":", "?", "=>", "!>"] then P.TWord(WordOf(s))
    else P.TOp(OpOf(s))
  }

  function WordOf(s: string): P.Word {
    if s == "," then P.KComma else if s == ";" then P.KSemi else if s == ":" then P.KColon
    else if s == "?" then P.KQuest else if s == "=>" then P.KThen else P.KNThen
  }

  function OpOf(s: string): Op {
    if s == "(" then OpLPar else if s == "^" then OpXor else if s == "~" then OpCompl
    else if s == "+" then OpAdd else if s == "-" then OpSub else if s == "*" then OpMul
    else if s == "/" then OpDiv else if s == "%" then OpMod else if s == "&" then OpBitAnd
    else if s == "|" then OpBitOr else if s == ">" then OpG else if s == "<" then OpL
    else if s == "==" then OpEq else if s == "!=" then OpNEq else if s == ">=" then OpGEq
    else if s == "<=" then OpLEq else if s == "&&" then OpLogAnd else if s == "||" then OpLogOr
    else OpLogNeg
  }

  // The tokens up to the end of the text; an error is a token of its own.
  function StreamOf(u: Chars, acc: string, s: string): seq<Tok>
    decreases |s|
  {
    var r := Lex(u, acc, s);
    if r.BadTok? then [P.TBad] + StreamOf(u, r.acc, r.rest)
    else if r.t.kind.KEof? then []
    else [TokOf(r.t)] + StreamOf(u, r.acc, r.rest)
  }

  // ----- a spelling for every token -----

  function OpText(op: Op): string {
    match op
    case OpLPar => "("
    case OpXor => "^"
    case OpCompl => "~"
    case OpAdd => "+"
    case OpSub => "-"
    case OpMul => "*"
    case OpDiv => "/"
    case OpMod => "%"
    case OpBitAnd => "&"
    case OpBitOr => "|"
    case OpG => ">"
    case OpL => "<"
    case OpEq => "=="
    case OpNEq => "!="
    case OpGEq => ">="
    case OpLEq => "<="
    case OpLogAnd => "&&"
    case OpLogOr => "||"
    case OpLogNeg => "!"
  }

  function WordText(w: P.Word): string {
    match w
    case KComma => ","
    case KSemi => ";"
    case KColon => ":"
    case KQuest => "?"
    case KThen => "=>"
    case KNThen => "!>"
    case KLevels => "levels"
    case KVars => "vars"
    case KConsts => "consts"
    case KRules => "rules"
    case KSoft => "soft"
  }

  function Spelling(t: Tok): string {
    match t
    case TLit(text) => text
    case TId(name) => name
    case TOp(op) => OpText(op)
    case TRPar => ")"
    case TAsig => "="
    case TWord(w) => WordText(w)
    case _ => ""
  }

  // Tokens as text, with a blank after each.
  function Spell(ts: seq<Tok>): string {
    if ts == [] then "" else Spelling(ts[0]) + (" " + Spell(ts[1..]))
  }

  // A token that can be spelled: a number, a string or a truth value, a name
  // that is not reserved, or a symbol.
  ghost predicate Spelled(u: Chars, t: Tok) {
    match t
    case TLit(x) => x == "true" || x == "false" || Literal(u, x)
    case TId(n) => n !in RESERVED && NameText(u, n)
    case TBad => false
    case TStuck => false
    case _ => true
  }

  ghost predicate Literal(u: Chars, x: string) {
    || (IntText(x) && u.isInt(x))
    || (QuotedText(u, x) && u.isQuoted(x))
    || (u.isFloat(x) && exists a, b, e :: FloatText(x, a, b, e))
  }

  ghost predicate AllSpelled(u: Chars, ts: seq<Tok>) {
    forall t | t in ts :: Spelled(u, t)
  }

  // ----- the lexer reads the spelling -----

  predicate ReadsAs(u: Chars, text: string, rest: string, t: Tok) {
    var r := Lex(u, [], text + (" " + rest));
    r.Tok? && !r.t.kind.KEof? && TokOf(r.t) == t && r.acc == [] && r.rest == " " + rest
  }

  lemma WordRead(u: Chars, n: string, rest: string)
    requires Usual(u) && NameText(u, n)
    ensures Lex(u, [], n + (" " + rest)) == Tok(Token(if n in RESERVED then KKeyword else KId, n), [], " " + rest)
  {
    NameLexed(u, n, " " + rest);
  }

  lemma SymbolRead(u: Chars, d: string, rest: string)
    requires Usual(u) && (d in PAIRS || (|d| == 1 && d[0] in "()*/+-^,%;:?~=!><&|"))
    ensures Lex(u, [], d + (" " + rest)) == Tok(Token(KSymbol(d), d), [], " " + rest)
  {
    if d !in PAIRS { NoBlankPair([d[0], ' ']); }
    SymbolLexed(u, d, " " + rest);
  }

  lemma NoBlankPair(d: string)
    requires |d| == 2 && d[1] == ' '
    ensures d !in PAIRS
  {
  }

  lemma OpReads(op: Op)
    ensures SymbolOf(OpText(op)) == P.TOp(op)
  {
  }

  lemma OpSymbol(op: Op)
    ensures var d := OpText(op); d in PAIRS || (|d| == 1 && d[0] in "()*/+-^,%;:?~=!><&|")
  {
  }

  predicate IsKeyword(w: P.Word) {
    w in {P.KLevels, P.KVars, P.KConsts, P.KRules, P.KSoft}
  }

  lemma WordReads(w: P.Word)
    requires !IsKeyword(w)
    ensures SymbolOf(WordText(w)) == P.TWord(w)
    ensures var d := WordText(w); d in PAIRS || (|d| == 1 && d[0] in "()*/+-^,%;:?~=!><&|")
  {
  }

  lemma KeywordReads(w: P.Word)
    requires IsKeyword(w)
    ensures WordText(w) in RESERVED && WordText(w) != "true" && WordText(w) != "false"
    ensures KeywordOf(WordText(w)) == P.TWord(w)
  {
    assert RESERVED[2] == "levels" && RESERVED[3] == "soft" && RESERVED[4] == "vars";
    assert RESERVED[5] == "consts" && RESERVED[6] == "rules";
  }

  lemma OtherReads()
    ensures SymbolOf(")") == P.TRPar && SymbolOf("=") == P.TAsig
  {
  }

  lemma KeywordRead(u: Chars, k: string, rest: string)
    requires Usual(u) && k in RESERVED
    ensures Lex(u, [], k + (" " + rest)) == Tok(Token(KKeyword, k), [], " " + rest)
  {
    assert NameText(u, k) by {
      ReservedLatin(k);
      assert forall i | 0 <= i < |k| :: IsLatin(k[i]);
    }
    WordRead(u, k, rest);
  }

  lemma ReservedLatin(k: string)
    requires k in RESERVED
    ensures k != "" && forall i | 0 <= i < |k| :: IsLatin(k[i])
  {
  }

  lemma SpellingRead(u: Chars, t: Tok, rest: string)
    requires Usual(u) && Spelled(u, t)
    ensures ReadsAs(u, Spelling(t), rest, t)
  {
    hide Lex, OpText, WordText, SymbolOf, KeywordOf, Usual, Literal;
    match t
    case TLit(x) => LiteralRead(u, x, rest);
    case TId(n) => WordRead(u, n, rest);
    case TOp(op) =>
      OpReads(op);
      OpSymbol(op);
      SymbolRead(u, OpText(op), rest);
    case TRPar =>
      OtherReads();
      SymbolRead(u, ")", rest);
    case TAsig =>
      OtherReads();
      SymbolRead(u, "=", rest);
    case TWord(w) =>
      if IsKeyword(w) {
        KeywordReads(w);
        KeywordRead(u, WordText(w), rest);
      } else {
        WordReads(w);
        SymbolRead(u, WordText(w), rest);
      }
  }

  lemma BlankEnds(u: Chars, rest: string)
    requires Usual(u)
    ensures NumberEnds(u, " " + rest) && NameEnds(u, " " + rest)
  {
  }

  lemma LiteralRead(u: Chars, x: string, rest: string)
    requires Usual(u) && Spelled(u, P.TLit(x))
    ensures ReadsAs(u, x, rest, P.TLit(x))
  {
    hide Lex, IntText, QuotedText, FloatText, Usual;
    BlankEnds(u, rest);
    if x == "true" || x == "false" {
      assert RESERVED[0] == "true" && RESERVED[1] == "false";
      KeywordRead(u, x, rest);
    } else if IntText(x) && u.isInt(x) {
      IntLexed(u, x, " " + rest);
    } else if QuotedText(u, x) && u.isQuoted(x) {
      QuotedLexed(u, x, " " + rest);
    } else {
      var a, b, e :| FloatText(x, a, b, e);
      FloatLexed(u, x, a, b, e, " " + rest);
    }
  }

  // The tokens of a text that spells them are those tokens.
  lemma {:induction false} StreamSpelled(u: Chars, ts: seq<Tok>)
    requires Usual(u) && AllSpelled(u, ts)
    ensures StreamOf(u, [], Spell(ts)) == ts
    decreases ts
  {
    if ts == [] {
      LexHere(u, [], "");
    } else {
      var rest := Spell(ts[1..]);
      assert ts[0] in ts;
      SpellingRead(u, ts[0], rest);
      AfterBlank(u, rest);
      StreamSpelled(u, ts[1..]);
    }
  }

  lemma AfterBlank(u: Chars, s: string)
    requires u.space(' ')
    ensures StreamOf(u, [], " " + s) == StreamOf(u, [], s)
  {
    LexBlank(u, [], " " + s, []);
    assert (" " + s)[1..] == s;
  }

  // From text to trees: a well-formed program, spelled out, is lexed and
  // parsed into exactly its trees, without an error.
  lemma TextRoundTrip(u: Chars, xs: seq<SectText>, builtins: set<string>)
    requires Usual(u) && AllSpelled(u, ProgTokens(xs))
    requires ProgFits([{}, builtins, {}], Program([], [], []), xs)
    ensures
      var r := Descent.Prog(Beginning(StreamOf(u, [], Spell(ProgTokens(xs))), builtins));
      && r.Go? && !r.value.failed && r.value.s.errs == 0 && r.value.s.ahead == []
      && r.value.s.prog == AddSects(Program([], [], []), xs)
  {
    StreamSpelled(u, ProgTokens(xs));
    ProgramRoundTrip(Beginning(ProgTokens(xs), builtins), xs);
  }
}
