// What the lexer (lex/lex.go) keeps after an error, and what becomes of it: the
// characters accepted and not yet used are the start of the next lexeme.
module Leftovers {
  import opened Lexing

  // ----- what an error leaves -----

  // The errors of a number, and of a string that was closed, use up what has
  // been accepted.
  predicate Clears(u: Chars, s: string)
    requires s != []
  {
    if s[0] == '"' then InString(u, s[1..]).Closed? else s[0] == '.' || u.digit(s[0])
  }

  // What has been accepted by then of a string that is not closed, or else
  // the one bad character.
  function Accepted(u: Chars, s: string): (r: string)
    requires s != []
    ensures r != [] && r[0] == s[0]
  {
    if s[0] == '"' then "\"" + InString(u, s[1..]).kept else s[..1]
  }

  // An error leaves something exactly if it is not one of those.
  lemma LeftExact(u: Chars, acc: string, s: string)
    requires s != [] && TokenAt(u, acc, s).BadTok?
    ensures TokenAt(u, acc, s).acc == if Clears(u, s) then [] else acc + Accepted(u, s)
    ensures TokenAt(u, acc, s).acc != [] <==> !Clears(u, s)
  {
    if s[0] == '"' && InString(u, s[1..]).Open? {
      assert acc + "\"" + InString(u, s[1..]).kept == acc + ("\"" + InString(u, s[1..]).kept);
    }
  }

  // A character that starts no token.
  predicate StartsNothing(u: Chars, c: char) {
    !IsArrow(c) && !IsSingle(c) && !StartsDouble(c) && c != '"' && c != '.' && !u.digit(c) && !StartsId(u, c)
  }

  // What can be left: it starts with a bad character, or opens a string.
  predicate Left(u: Chars, acc: string) {
    acc != [] && (acc[0] == '"' || StartsNothing(u, acc[0]))
  }

  lemma ErrorLeaves(u: Chars, acc: string, s: string)
    requires s != [] && (acc == [] || Left(u, acc)) && TokenAt(u, acc, s).BadTok?
    ensures TokenAt(u, acc, s).acc == [] || Left(u, TokenAt(u, acc, s).acc)
  {
    LeftExact(u, acc, s);
  }

  // Between any two calls of the lexer nothing is accepted, or what an error
  // has left.
  lemma {:induction false} LeftBetweenCalls(u: Chars, f: Front, n: nat)
    requires f.acc == [] || Left(u, f.acc)
    ensures var g := Calls(u, f, n); g.acc == [] || Left(u, g.acc)
    decreases n
  {
    if n > 0 {
      if f.saved == Nothing && Blank(u, f.rest) < |f.rest| {
        var acc := if Blank(u, f.rest) == 0 then f.acc else [];
        var s := f.rest[Blank(u, f.rest)..];
        if TokenAt(u, acc, s).BadTok? { ErrorLeaves(u, acc, s); } else { TokensUseAll(u, acc, s); }
      }
      LeftBetweenCalls(u, LexFront(u, f).1, n - 1);
    }
  }

  function Calls(u: Chars, f: Front, n: nat): Front
    decreases n
  {
    if n == 0 then f else Calls(u, LexFront(u, f).1, n - 1)
  }

  lemma TokensUseAll(u: Chars, acc: string, s: string)
    requires s != [] && TokenAt(u, acc, s).Tok?
    ensures TokenAt(u, acc, s).acc == []
  {
  }

  // ----- what becomes of it -----

  // Every keyword starts with a letter.
  predicate Letters(u: Chars) {
    forall k | k in KEYWORDS :: k != [] && u.letter(k[0])
  }

  // White space and comments drop it.
  lemma BlankDrops(u: Chars, acc: string, s: string)
    requires Blank(u, s) > 0
    ensures Lex(u, acc, s) == Lex(u, [], s)
  {
  }

  // So does an arrow; any other token, or error, begins with it.  A symbol of
  // two characters falls apart, and a keyword is a name.
  lemma NextLexeme(u: Chars, acc: string, s: string)
    requires Letters(u) && Left(u, acc) && s != [] && !u.space(s[0]) && s[0] != '#'
    ensures
      var r, r' := Lex(u, [], s), Lex(u, acc, s);
      if IsArrow(s[0]) then r' == r
      else if IsSingle(s[0]) || StartsDouble(s[0]) then r' == Tok(Token(KSymbol(s[..1]), acc + s[..1]), [], s[1..])
      else r'.rest == r.rest && if Clears(u, s) then Begins(acc, s, r, r') else Goes(u, acc, s, r, r')
  {
    LexHere(u, acc, s);
    LexHere(u, [], s);
    var c := s[0];
    if IsArrow(c) {
    } else if IsSingle(c) || StartsDouble(c) {
      NotDouble(u, acc, s);
    } else if c == '"' {
      StringBegins(u, acc, s);
    } else if c == '.' || u.digit(c) {
      NumberBegins(u, acc, s);
    } else if StartsId(u, c) {
      NameBegins(u, acc, s);
    } else {
      assert [] + [c] == [c] == s[..1];
    }
  }

  // A number or a closed string: nothing is left, and a lexeme is what it
  // would be with the leftover in front.
  predicate Begins(acc: string, s: string, r: Lexed, r': Lexed) {
    && r'.acc == [] && (r'.Tok? && r.Tok? ==> r'.t.lexeme == acc + r.t.lexeme)
    && (r'.Tok? ==> acc <= r'.t.lexeme)
  }

  // A name, or an error that leaves more.
  predicate Goes(u: Chars, acc: string, s: string, r: Lexed, r': Lexed)
    requires s != []
  {
    if StartsId(u, s[0]) && s[0] != '"' then r.Tok? && r' == Tok(Token(KId, acc + r.t.lexeme), [], r.rest)
    else r' == BadTok(acc + Accepted(u, s), r.rest)
  }

  lemma NotDouble(u: Chars, acc: string, s: string)
    requires Left(u, acc) && s != [] && (IsSingle(s[0]) || StartsDouble(s[0]))
    ensures SymbolTok(acc, s) == Tok(Token(KSymbol(s[..1]), acc + s[..1]), [], s[1..])
  {
    var n := Least(2, |s|);
    assert (acc + s[..n])[0] == acc[0];
    assert forall d | d in DOUBLES :: StartsDouble(d[0]);
  }

  lemma NameBegins(u: Chars, acc: string, s: string)
    requires Letters(u) && Left(u, acc) && s != []
    ensures
      var n := IdLength(u, s);
      var r := IdTok([], s, n);
      IdTok(acc, s, n) == Tok(Token(KId, acc + r.t.lexeme), [], r.rest)
  {
    var n := IdLength(u, s);
    assert [] + s[..n] == s[..n] && (acc + s[..n])[0] == acc[0];
    if acc + s[..n] in KEYWORDS { QuoteIsNoLetter(u, acc + s[..n]); }
  }

  lemma QuoteIsNoLetter(u: Chars, k: string)
    requires k in KEYWORDS && Letters(u)
    ensures k[0] != '"' && u.letter(k[0])
  {
  }

  lemma NumberBegins(u: Chars, acc: string, s: string)
    requires s != []
    ensures
      var r, r' := NumTok(u, [], s), NumTok(u, acc, s);
      r'.rest == r.rest && Begins(acc, s, r, r')
  {
    var n := Number(u, s).n;
    assert [] + s[..n] == s[..n];
  }

  lemma StringBegins(u: Chars, acc: string, s: string)
    requires s != [] && s[0] == '"'
    ensures
      var r, r' := StrTok(u, [], s), StrTok(u, acc, s);
      && r'.rest == r.rest
      && if Clears(u, s) then Begins(acc, s, r, r') else r' == BadTok(acc + Accepted(u, s), r.rest)
  {
    var kept := InString(u, s[1..]).kept;
    assert acc + "\"" + kept == acc + ("\"" + kept) && [] + "\"" + kept == "\"" + kept;
    assert acc + "\"" + kept + "\"" == acc + ("\"" + kept + "\"");
  }

  // A bad character is left.
  lemma BadFirst(u: Chars, c: char, s: string)
    requires StartsNothing(u, c) && !u.space(c) && c != '#'
    ensures Lex(u, [], [c] + s) == BadTok([c], s) && Left(u, [c])
  {
    LexHere(u, [], [c] + s);
    assert ([c] + s)[1..] == s && [] + [c] == [c];
  }

  // After it a comparison of two characters is two symbols: "@==" has no
  // equality in it.
  lemma DoubleSplit(u: Chars, c: char, d: string, s: string)
    requires Letters(u) && StartsNothing(u, c) && d in DOUBLES && !u.space(d[0])
    ensures Lex(u, [c], d + s) == Tok(Token(KSymbol(d[..1]), [c] + d[..1]), [], d[1..] + s)
    ensures Lex(u, [], d + s) == Tok(Token(KSymbol(d), d), [], s)
  {
    DoublesAre(d);
    assert (d + s)[..1] == d[..1] && (d + s)[1..] == d[1..] + s && (d + s)[..2] == d && (d + s)[2..] == s;
    assert [] + d == d;
    NextLexeme(u, [c], d + s);
    LexHere(u, [], d + s);
  }

  lemma DoublesAre(d: string)
    requires d in DOUBLES
    ensures |d| == 2 && StartsDouble(d[0]) && !IsArrow(d[0]) && d[0] != '#'
  {
  }
}
