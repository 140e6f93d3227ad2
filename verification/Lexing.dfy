// The lexer (lex/lex.go) as functions on the characters ahead, and what a run
// of it does with the text: every character is white space, part of a comment,
// or part of exactly one token.
module Lexing {

  // Character classes, and whether a spelling converts to a value.
  datatype Chars = Chars(
    letter: char -> bool, digit: char -> bool, space: char -> bool, graphic: char -> bool,
    isInt: string -> bool, isFloat: string -> bool, isQuoted: string -> bool)

  datatype Kind = KEof | KSymbol(symbol: string) | KId | KKeyword | KInt | KFloat | KStr

  datatype Token = Token(kind: Kind, lexeme: string)

  // A token, or an error; the characters accepted and not yet used, and what
  // is ahead.
  datatype Lexed = Tok(t: Token, acc: string, rest: string) | BadTok(acc: string, rest: string)

  const ARROW_THEN := '\U{2192}'
  const ARROW_NTHEN := '\U{219B}'

  predicate IsArrow(c: char) {
    c == ARROW_THEN || c == ARROW_NTHEN
  }

  function ArrowText(c: char): string {
    if c == ARROW_THEN then "=>" else "!>"
  }

  predicate IsSingle(c: char) {
    c in "()*/+-^,%;:?~"
  }

  predicate StartsDouble(c: char) {
    c in "=!><&|"
  }

  const DOUBLES := ["!>", "==", "!=", ">=", "<=", "=>", "&&", "||"]

  const KEYWORDS := ["true", "false", "levels", "soft", "vars", "consts", "rules"]

  // How many characters at the start have a property.
  function Span(s: string, p: char -> bool): (n: nat)
    ensures n <= |s|
    ensures forall i | 0 <= i < n :: p(s[i])
    ensures n < |s| ==> !p(s[n])
  {
    if s == [] || !p(s[0]) then 0 else 1 + Span(s[1..], p)
  }

  // The first place at or after k without a property.
  function SpanEnd(s: string, k: nat, p: char -> bool): (n: nat)
    requires k <= |s|
    ensures k <= n <= |s| && (n < |s| ==> !p(s[n]))
  {
    k + Span(s[k..], p)
  }

  // ----- identifiers, numbers, strings -----

  predicate IsAlpha(u: Chars, c: char) {
    u.digit(c) || u.letter(c) || c == '_'
  }

  predicate StartsId(u: Chars, c: char) {
    u.letter(c) || c == '_'
  }

  function Alphas(u: Chars): char -> bool {
    c => IsAlpha(u, c)
  }

  function IdLength(u: Chars, s: string): (n: nat)
    requires s != []
    ensures 0 < n <= |s|
  {
    SpanEnd(s, 1, Alphas(u))
  }

  // Digits in the base that x, o or b announces.
  predicate DigitBased(u: Chars, base: char, c: char) {
    match base
    case 'x' => u.digit(c) || 'a' <= c <= 'f'
    case 'o' => '0' <= c <= '7'
    case 'b' => c == '0' || c == '1'
    case _ => u.digit(c)
  }

  function Digits(u: Chars, base: char): char -> bool {
    c => DigitBased(u, base, c)
  }

  predicate IsBase(c: char) {
    c == 'x' || c == 'b' || c == 'o'
  }

  // The start of a number: how much is taken before its digits are looked at,
  // its base, and whether there was a dot.
  datatype NumStart = NumStart(n: nat, base: char, dot: bool)

  function StartOfNumber(s: string): (r: NumStart)
    requires s != []
    ensures 0 < r.n <= |s|
  {
    if s[0] == '.' then NumStart(Least(2, |s|), '0', true)
    else if s[0] == '0' && |s| > 1 && IsBase(s[1]) then NumStart(Least(3, |s|), s[1], false)
    else NumStart(1, '0', false)
  }

  function Least(a: nat, b: nat): nat {
    if a < b then a else b
  }

  datatype Numeral = IntNum(n: nat) | FloatNum(n: nat) | BadNum(n: nat)

  predicate HasAt(s: string, i: nat, c: char) {
    i < |s| && s[i] == c
  }

  function Number(u: Chars, s: string): (r: Numeral)
    requires s != []
    ensures 0 < r.n <= |s|
  {
    var start := StartOfNumber(s);
    Fraction(u, s, SpanEnd(s, start.n, Digits(u, start.base)), start.base, start.dot)
  }

  // From what follows the first digits: a dot and more digits, or not.
  function Fraction(u: Chars, s: string, k: nat, base: char, dot: bool): (r: Numeral)
    requires 0 < k <= |s|
    ensures 0 < r.n <= |s|
  {
    if !HasAt(s, k, '.') then Exponent(u, s, k, base, dot)
    else if dot || base != '0' then BadNum(k + 1)
    else Exponent(u, s, SpanEnd(s, k + 1, u.digit), base, true)
  }

  // After the letter at k, a sign if there is one, and one character more.
  function ExponentStart(s: string, k: nat): (m: nat)
    requires k < |s|
    ensures k < m <= |s|
  {
    Least(|s|, if HasAt(s, k + 1, '+') || HasAt(s, k + 1, '-') then k + 3 else k + 2)
  }

  function WithExponent(u: Chars, s: string, m: nat, base: char): (r: Numeral)
    requires 0 < m <= |s|
    ensures 0 < r.n <= |s|
  {
    if base != '0' then BadNum(m) else FloatNum(SpanEnd(s, m, u.digit))
  }

  // From what follows the digits: an exponent, or the end of the number.
  function Exponent(u: Chars, s: string, k: nat, base: char, dot: bool): (r: Numeral)
    requires 0 < k <= |s|
    ensures 0 < r.n <= |s|
  {
    if HasAt(s, k, 'E') || HasAt(s, k, 'e') then WithExponent(u, s, ExponentStart(s, k), base)
    else if dot then FloatNum(k)
    else IntNum(k)
  }

  predicate IsStrChar(u: Chars, c: char) {
    (u.graphic(c) && c != '"') || c == '\n'
  }

  // The inside of a string: how much is taken, how it is kept, and whether it
  // was closed.  A newline is kept as an escape, unless a backslash is before.
  datatype Inside = Closed(n: nat, kept: string) | Open(n: nat, kept: string)

  function InString(u: Chars, s: string): (r: Inside)
    ensures r.n <= |s| && (r.Closed? ==> HasAt(s, r.n, '"'))
  {
    if s == [] then Open(0, [])
    else if !IsStrChar(u, s[0]) then if s[0] == '"' then Closed(0, []) else Open(0, [])
    else
      var c := CharInString(u, s);
      if c.ok then Further(c.n, c.kept, InString(u, s[c.n..])) else Open(c.n, c.kept)
  }

  // One character of a string, with the one it escapes.
  datatype StrChar = StrChar(n: nat, kept: string, ok: bool)

  function CharInString(u: Chars, s: string): (r: StrChar)
    requires s != []
    ensures 0 < r.n <= |s|
  {
    if s[0] != '\\' then StrChar(1, if s[0] == '\n' then "\\n" else s[..1], true)
    else if |s| == 1 then StrChar(1, s, false)
    else StrChar(2, s[..2], s[1] == '"' || IsStrChar(u, s[1]))
  }

  function Further(n: nat, kept: string, r: Inside): Inside {
    if r.Closed? then Closed(n + r.n, kept + r.kept) else Open(n + r.n, kept + r.kept)
  }

  // ----- one token -----

  // A token whose text has been taken; acc is what was accepted before it.
  function IdTok(acc: string, s: string, n: nat): Lexed
    requires n <= |s|
  {
    var text := acc + s[..n];
    Tok(Token(if text in KEYWORDS then KKeyword else KId, text), [], s[n..])
  }

  function NumTok(u: Chars, acc: string, s: string): Lexed
    requires s != []
  {
    NumAs(u, acc, s, Number(u, s))
  }

  function NumAs(u: Chars, acc: string, s: string, num: Numeral): Lexed
    requires num.n <= |s|
  {
    var text := acc + s[..num.n];
    match num
    case IntNum(n) => if u.isInt(text) then Tok(Token(KInt, text), [], s[n..]) else BadTok([], s[n..])
    case FloatNum(n) => if u.isFloat(text) then Tok(Token(KFloat, text), [], s[n..]) else BadTok([], s[n..])
    case BadNum(n) => BadTok([], s[n..])
  }

  // s starts with the opening quote.
  function StrTok(u: Chars, acc: string, s: string): Lexed
    requires s != []
  {
    var inside := InString(u, s[1..]);
    var text := acc + "\"" + inside.kept;
    if inside.Open? then BadTok(text, s[1 + inside.n..])
    else
      var rest := s[2 + inside.n..];
      if u.isQuoted(text + "\"") then Tok(Token(KStr, text + "\""), [], rest) else BadTok([], rest)
  }

  function SymbolTok(acc: string, s: string): Lexed
    requires s != []
  {
    var n := Least(2, |s|);
    if StartsDouble(s[0]) && acc + s[..n] in DOUBLES then Tok(Token(KSymbol(acc + s[..n]), acc + s[..n]), [], s[n..])
    else Tok(Token(KSymbol(s[..1]), acc + s[..1]), [], s[1..])
  }

  // A token at the very start.
  function TokenAt(u: Chars, acc: string, s: string): (r: Lexed)
    requires s != []
    ensures |r.rest| < |s| && (r.Tok? ==> !r.t.kind.KEof?)
  {
    var c := s[0];
    if IsArrow(c) then Tok(Token(KSymbol(ArrowText(c)), ArrowText(c)), [], s[1..])
    else if IsSingle(c) || StartsDouble(c) then SymbolTok(acc, s)
    else if c == '"' then StrTok(u, acc, s)
    else if c == '.' || u.digit(c) then NumTok(u, acc, s)
    else if StartsId(u, c) then IdTok(acc, s, IdLength(u, s))
    else BadTok(acc + [c], s[1..])
  }

  // How much white space and comments are ahead.
  function Blank(u: Chars, s: string): (n: nat)
    ensures n <= |s|
  {
    if s == [] then 0
    else if u.space(s[0]) then 1 + Blank(u, s[1..])
    else if s[0] == '#' then
      var n := CommentLength(s);
      n + Blank(u, s[n..])
    else 0
  }

  function InLine(): char -> bool {
    c => c != '\n'
  }

  // A comment ends with its line, newline included, or with the text.
  function CommentLength(s: string): (n: nat)
    requires s != []
    ensures 0 < n <= |s|
  {
    var n := 1 + Span(s[1..], InLine());
    if n < |s| then n + 1 else n
  }

  // Any white space or comment clears what was accepted.
  function Lex(u: Chars, acc: string, s: string): (r: Lexed)
    ensures r.Tok? && r.t.kind.KEof? <==> Blank(u, s) == |s|
    ensures Blank(u, s) < |s| ==> |r.rest| < |s| - Blank(u, s)
  {
    var n := Blank(u, s);
    if n == |s| then Tok(Token(KEof, []), [], [])
    else TokenAt(u, if n == 0 then acc else [], s[n..])
  }

  // ----- partition -----

  // A string as it is kept: newlines in it are escapes, unless a backslash is
  // before them.
  function AsKept(raw: string): string {
    if raw == [] then []
    else if raw[0] == '\\' && |raw| > 1 then raw[..2] + AsKept(raw[2..])
    else (if raw[0] == '\n' then "\\n" else [raw[0]]) + AsKept(raw[1..])
  }

  // The text of a token.
  predicate Spells(raw: string, t: Token) {
    match t.kind
    case KEof => raw == []
    case KSymbol(symbol) =>
      (|raw| == 1 && IsArrow(raw[0]) && t.lexeme == ArrowText(raw[0])) || raw == t.lexeme == symbol
    case KStr => |raw| >= 2 && raw[0] == raw[|raw| - 1] == '"' && t.lexeme == "\"" + AsKept(raw[1..|raw| - 1]) + "\""
    case _ => raw == t.lexeme
  }

  // Text in which every character is white space or in a comment.
  predicate AllBlank(u: Chars, s: string) {
    Blank(u, s) == |s|
  }

  lemma {:induction false} InsideKept(u: Chars, s: string)
    ensures var r := InString(u, s); r.Closed? ==> r.kept == AsKept(s[..r.n])
    decreases |s|
  {
    if s != [] && IsStrChar(u, s[0]) {
      var n, r := CharInString(u, s).n, InString(u, s);
      InsideKept(u, s[n..]);
      if r.Closed? {
        assert s[..r.n][n..] == s[n..][..r.n - n];
        assert s[..r.n][..n] == s[..n];
      }
    }
  }

  // The text a token was read from, if one was read from nothing accepted.
  predicate TakesText(s: string, r: Lexed) {
    r.Tok? ==>
      && r.acc == [] && |r.rest| < |s| && s[|s| - |r.rest|..] == r.rest
      && Spells(s[..|s| - |r.rest|], r.t)
  }

  lemma StrTaken(u: Chars, s: string)
    requires s != [] && s[0] == '"'
    ensures TakesText(s, StrTok(u, [], s))
  {
    var r := InString(u, s[1..]);
    InsideKept(u, s[1..]);
    if r.Closed? {
      var raw := s[..2 + r.n];
      assert raw[1..|raw| - 1] == s[1..][..r.n];
      assert s[|raw|..] == s[2 + r.n..];
      assert [] + "\"" + r.kept + "\"" == "\"" + r.kept + "\"";
    }
  }

  lemma NumTaken(u: Chars, s: string)
    requires s != []
    ensures TakesText(s, NumTok(u, [], s))
  {
    var n := Number(u, s).n;
    assert [] + s[..n] == s[..n];
  }

  lemma IdTaken(s: string, n: nat)
    requires 0 < n <= |s|
    ensures TakesText(s, IdTok([], s, n))
  {
    assert [] + s[..n] == s[..n];
  }

  lemma SymbolTaken(s: string)
    requires s != []
    ensures TakesText(s, SymbolTok([], s))
  {
    assert forall n | 0 <= n <= |s| :: [] + s[..n] == s[..n];
  }

  // The text after the current line.
  function AfterLine(s: string): string {
    if s == [] then [] else if s[0] == '\n' then s[1..] else AfterLine(s[1..])
  }

  lemma {:induction false} AfterSpan(s: string)
    ensures var n := Span(s, InLine()); AfterLine(s) == s[if n < |s| then n + 1 else n..]
    decreases s
  {
    if s != [] && s[0] != '\n' { AfterSpan(s[1..]); }
  }

  // White space and comments clear what was accepted.
  lemma LexBlank(u: Chars, acc: string, s: string, left: string)
    requires s != []
    ensures u.space(s[0]) ==> Lex(u, acc, s) == Lex(u, [], s[1..])
    ensures !u.space(s[0]) && s[0] == '#' ==>
      var after := AfterLine(s[1..]); after == [] || left == [] ==> Lex(u, acc, s) == Lex(u, left, after)
  {
    if u.space(s[0]) {
      LexSkip(u, acc, s, 1, []);
    } else if s[0] == '#' {
      AfterSpan(s[1..]);
      var n := CommentLength(s);
      assert s[n..] == AfterLine(s[1..]);
      if s[n..] == [] || left == [] { LexSkip(u, acc, s, n, left); }
    }
  }

  lemma LexSkip(u: Chars, acc: string, s: string, n: nat, left: string)
    requires 0 < n <= |s| && Blank(u, s) == n + Blank(u, s[n..]) && (n < |s| ==> left == [])
    ensures Lex(u, acc, s) == Lex(u, left, s[n..])
  {
    var m := Blank(u, s[n..]);
    var here, there := s[n + m..], s[n..][m..];
    assert here == there;
    if n + m < |s| {
      assert Lex(u, acc, s) == TokenAt(u, [], here);
      assert Lex(u, left, s[n..]) == TokenAt(u, [], there);
    }
  }

  lemma LexHere(u: Chars, acc: string, s: string)
    requires s == [] || (!u.space(s[0]) && s[0] != '#')
    ensures Lex(u, acc, s) == if s == [] then Tok(Token(KEof, []), [], []) else TokenAt(u, acc, s)
  {
    assert s[0..] == s;
  }

  // A token takes exactly its text.
  lemma TokenTaken(u: Chars, s: string)
    requires s != []
    ensures TakesText(s, TokenAt(u, [], s))
  {
    var c := s[0];
    if IsArrow(c) {
    } else if IsSingle(c) || StartsDouble(c) {
      SymbolTaken(s);
    } else if c == '"' {
      StrTaken(u, s);
    } else if c == '.' || u.digit(c) {
      NumTaken(u, s);
    } else if StartsId(u, c) {
      IdTaken(s, IdLength(u, s));
    }
  }

  lemma {:induction false} BlankIsBlank(u: Chars, s: string)
    ensures AllBlank(u, s[..Blank(u, s)])
    decreases |s|
  {
    if s != [] {
      var b := Blank(u, s);
      if u.space(s[0]) {
        BlankIsBlank(u, s[1..]);
        assert s[..b][1..] == s[1..][..b - 1];
      } else if s[0] == '#' {
        var n := CommentLength(s);
        BlankIsBlank(u, s[n..]);
        CommentPrefix(s, b);
        assert s[..b][n..] == s[n..][..b - n];
      }
    }
  }

  lemma CommentPrefix(s: string, b: nat)
    requires s != [] && CommentLength(s) <= b <= |s|
    ensures CommentLength(s[..b]) == CommentLength(s)
  {
    SpanPrefix(s[1..], b - 1, InLine());
    assert s[..b][1..] == s[1..][..b - 1];
  }

  lemma {:induction false} SpanPrefix(s: string, b: nat, p: char -> bool)
    requires b <= |s|
    ensures Span(s[..b], p) == Least(Span(s, p), b)
    decreases b
  {
    if b > 0 && p(s[0]) {
      SpanPrefix(s[1..], b - 1, p);
      assert s[..b][1..] == s[1..][..b - 1];
    }
  }

  // A run to the end of the text, as white space and comments, and tokens with
  // their text; None if a token is bad.
  datatype Piece = Gap(text: string) | Word(text: string, t: Token)

  datatype Run = Whole(pieces: seq<Piece>) | Broken

  function RunOf(u: Chars, s: string): Run
    decreases |s|
  {
    var r := Lex(u, [], s);
    if r.BadTok? then Broken
    else if r.t.kind.KEof? then Whole([Gap(s)])
    else
      var more := RunOf(u, r.rest);
      if more.Broken? then Broken else Whole(FirstTwo(s, Blank(u, s), r) + more.pieces)
  }

  function FirstTwo(s: string, b: nat, r: Lexed): seq<Piece>
    requires r.Tok? && b + |r.rest| <= |s|
  {
    [Gap(s[..b]), Word(s[b..|s| - |r.rest|], r.t)]
  }

  function Text(ps: seq<Piece>): string {
    if ps == [] then [] else ps[0].text + Text(ps[1..])
  }

  predicate PieceOk(u: Chars, p: Piece) {
    match p
    case Gap(text) => AllBlank(u, text)
    case Word(text, t) => text != [] && Spells(text, t)
  }

  predicate PiecesOk(u: Chars, ps: seq<Piece>) {
    ps == [] || (PieceOk(u, ps[0]) && PiecesOk(u, ps[1..]))
  }

  // A successful run splits the text: put together again, the pieces are the
  // text, and each is white space and comments, or spells its token.
  lemma {:induction false} Partition(u: Chars, s: string)
    ensures var run := RunOf(u, s);
      run.Whole? ==> Text(run.pieces) == s && PiecesOk(u, run.pieces)
    decreases |s|
  {
    var r := Lex(u, [], s);
    if r.Tok? {
      if r.t.kind.KEof? {
        LastPiece(u, s);
      } else {
        Partition(u, r.rest);
        var more := RunOf(u, r.rest);
        PartOk(u, s);
        if more.Whole? { FirstPieces(u, s, Blank(u, s), r, more.pieces); }
      }
    }
  }

  // White space and comments up to b, then the text of a token.
  predicate Part(u: Chars, s: string, b: nat, r: Lexed) {
    && r.Tok? && b + |r.rest| < |s| && s[|s| - |r.rest|..] == r.rest
    && AllBlank(u, s[..b]) && Spells(s[b..|s| - |r.rest|], r.t)
  }

  lemma LastPiece(u: Chars, s: string)
    requires AllBlank(u, s)
    ensures Text([Gap(s)]) == s && PiecesOk(u, [Gap(s)])
  {
    assert Text([Gap(s)]) == s + Text([]);
  }

  lemma FirstPieces(u: Chars, s: string, b: nat, r: Lexed, more: seq<Piece>)
    requires Part(u, s, b, r) && Text(more) == r.rest && PiecesOk(u, more)
    ensures var ps := FirstTwo(s, b, r) + more; Text(ps) == s && PiecesOk(u, ps)
  {
    var e := |s| - |r.rest|;
    TwoMore(u, Gap(s[..b]), Word(s[b..e], r.t), more);
    assert s == s[..b] + s[b..e] + s[e..];
  }

  lemma PartOk(u: Chars, s: string)
    requires Lex(u, [], s).Tok? && Blank(u, s) < |s|
    ensures Part(u, s, Blank(u, s), Lex(u, [], s))
  {
    BlankIsBlank(u, s);
    TokenTaken(u, s[Blank(u, s)..]);
    PartOfTaken(u, s, Blank(u, s), Lex(u, [], s));
  }

  lemma PartOfTaken(u: Chars, s: string, b: nat, r: Lexed)
    requires b < |s| && r.Tok? && AllBlank(u, s[..b]) && TakesText(s[b..], r)
    ensures Part(u, s, b, r)
  {
    assert s[b..][|s| - b - |r.rest|..] == s[|s| - |r.rest|..];
    assert s[b..][..|s| - b - |r.rest|] == s[b..|s| - |r.rest|];
  }

  lemma TwoMore(u: Chars, p: Piece, q: Piece, ps: seq<Piece>)
    ensures Text([p, q] + ps) == p.text + q.text + Text(ps)
    ensures PieceOk(u, p) && PieceOk(u, q) && PiecesOk(u, ps) ==> PiecesOk(u, [p, q] + ps)
  {
    assert ([p, q] + ps)[1..] == [q] + ps && ([q] + ps)[1..] == ps;
  }

  // ----- looking ahead -----

  // A lexer between two calls: the token saved by a look, what was accepted
  // and not used, and what is ahead.
  datatype Front = Front(saved: Saved, acc: string, rest: string)

  datatype Saved = Nothing | Kept(t: Token)

  // What a call returns, and the lexer after it; Nothing is an error.
  function LexFront(u: Chars, f: Front): (Saved, Front) {
    if f.saved != Nothing then (f.saved, f.(saved := Nothing))
    else
      var r := Lex(u, f.acc, f.rest);
      (if r.Tok? then Kept(r.t) else Nothing, Front(Nothing, r.acc, r.rest))
  }

  function PeekFront(u: Chars, f: Front): (Saved, Front) {
    var (t, g) := LexFront(u, f);
    (t, g.(saved := t))
  }

  function Peeks(u: Chars, f: Front, n: nat): Front
    decreases n
  {
    if n == 0 then f else Peeks(u, PeekFront(u, f).1, n - 1)
  }

  // Looking at a token any number of times and then taking it is taking it.
  lemma {:induction false} PeeksThenLex(u: Chars, f: Front, n: nat)
    requires LexFront(u, f).0 != Nothing
    ensures LexFront(u, Peeks(u, f, n)) == LexFront(u, f)
    ensures PeekFront(u, Peeks(u, f, n)).0 == LexFront(u, f).0
    decreases n
  {
    if n > 0 { PeeksThenLex(u, PeekFront(u, f).1, n - 1); }
  }
}
