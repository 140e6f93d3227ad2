// Numbers, strings, names and symbols as they are written, described character
// by character, and the proof that the lexer (lex/lex.go) takes each of them
// whole.
module Lexemes {
  import opened Lexing

  // ----- the usual characters -----

  predicate IsDecimal(c: char) {
    '0' <= c <= '9'
  }

  predicate IsLatin(c: char) {
    'a' <= c <= 'z' || 'A' <= c <= 'Z'
  }

  const MARKS := "()*/+-^,%;:?~=!><&|#.\"\U{2192}\U{219B}"

  // Letters, digits, blanks and marks are told apart.
  ghost predicate Usual(u: Chars) {
    && u.space(' ') && !u.space('_') && !u.digit('_')
    && (forall c | IsDecimal(c) :: u.digit(c))
    && (forall c | IsLatin(c) :: u.letter(c))
    && (forall c | u.letter(c) :: !u.digit(c) && !u.space(c) && c !in MARKS)
    && (forall c | u.digit(c) :: !u.space(c) && c !in MARKS)
    && (forall c | u.space(c) :: c !in MARKS)
  }

  // A number ends here: no letter, digit or dot is next.
  predicate NumberEnds(u: Chars, rest: string) {
    rest == [] || (!u.letter(rest[0]) && !u.digit(rest[0]) && rest[0] != '.')
  }

  // ----- numbers as they are written -----

  predicate Decimals(s: string) {
    forall i | 0 <= i < |s| :: '0' <= s[i] <= '9'
  }

  predicate Hexadecimals(s: string) {
    forall i | 0 <= i < |s| :: '0' <= s[i] <= '9' || 'a' <= s[i] <= 'f'
  }

  predicate Octals(s: string) {
    forall i | 0 <= i < |s| :: '0' <= s[i] <= '7'
  }

  predicate Binaries(s: string) {
    forall i | 0 <= i < |s| :: s[i] == '0' || s[i] == '1'
  }

  predicate BasedText(x: string) {
    |x| > 2 && x[0] == '0' &&
    ((x[1] == 'x' && Hexadecimals(x[2..])) || (x[1] == 'o' && Octals(x[2..])) || (x[1] == 'b' && Binaries(x[2..])))
  }

  predicate IntText(x: string) {
    (x != "" && Decimals(x)) || BasedText(x)
  }

  predicate ExpText(e: string) {
    |e| > 1 && (e[0] == 'e' || e[0] == 'E') &&
    if e[1] == '+' || e[1] == '-' then |e| > 2 && Decimals(e[2..]) else Decimals(e[1..])
  }

  // Digits a, a dot and digits b, with or without an exponent e; or digits a
  // and an exponent.
  predicate FloatText(x: string, a: string, b: string, e: string) {
    Decimals(a) && Decimals(b) &&
    if x == a + ("." + (b + e)) then (a != "" || b != "") && (e == "" || ExpText(e))
    else x == a + e && a != "" && ExpText(e)
  }

  // ----- they are lexed whole -----

  lemma {:induction false} SpanEndIs(s: string, k: nat, m: nat, p: char -> bool)
    requires k <= m <= |s| && (forall i | k <= i < m :: p(s[i])) && (m < |s| ==> !p(s[m]))
    ensures SpanEnd(s, k, p) == m
    decreases m - k
  {
    if k < m {
      SpanEndIs(s, k + 1, m, p);
      assert s[k..][1..] == s[k + 1..];
    }
  }

  lemma NumberStarts(u: Chars, s: string)
    requires Usual(u) && s != "" && (s[0] == '.' || IsDecimal(s[0]))
    ensures Lex(u, [], s) == NumTok(u, [], s)
  {
    hide NumTok;
    assert s[0] == '.' ==> s[0] in MARKS;
    LexHere(u, [], s);
  }

  // A number that takes all of x.
  lemma NumberLexed(u: Chars, x: string, rest: string, num: Numeral)
    requires Usual(u) && x != "" && (x[0] == '.' || IsDecimal(x[0]))
    requires Number(u, x + rest) == num && num.n == |x|
    ensures num.IntNum? && u.isInt(x) ==> Lex(u, [], x + rest) == Tok(Token(KInt, x), [], rest)
    ensures num.FloatNum? && u.isFloat(x) ==> Lex(u, [], x + rest) == Tok(Token(KFloat, x), [], rest)
  {
    hide Number, Usual;
    var s := x + rest;
    NumberStarts(u, s);
    assert s[..|x|] == x && s[|x|..] == rest && [] + x == x;
  }

  lemma BasedNumber(u: Chars, x: string, rest: string)
    requires Usual(u) && BasedText(x) && NumberEnds(u, rest)
    ensures Number(u, x + rest) == IntNum(|x|)
  {
    var s := x + rest;
    assert forall i | 2 <= i < |x| :: x[i] == x[2..][i - 2];
    assert StartOfNumber(s) == NumStart(3, x[1], false);
    SpanEndIs(s, 3, |x|, Digits(u, x[1]));
  }

  lemma DecimalNumber(u: Chars, x: string, rest: string)
    requires Usual(u) && x != "" && Decimals(x) && NumberEnds(u, rest)
    ensures Number(u, x + rest) == IntNum(|x|)
  {
    var s := x + rest;
    assert StartOfNumber(s) == NumStart(1, '0', false);
    SpanEndIs(s, 1, |x|, Digits(u, '0'));
  }

  // With a blank or any other mark after it, or at the end of the text, an
  // integer is one token.
  lemma IntLexed(u: Chars, x: string, rest: string)
    requires Usual(u) && IntText(x) && u.isInt(x) && NumberEnds(u, rest)
    ensures Lex(u, [], x + rest) == Tok(Token(KInt, x), [], rest)
  {
    if BasedText(x) { BasedNumber(u, x, rest); } else { DecimalNumber(u, x, rest); }
    NumberLexed(u, x, rest, IntNum(|x|));
  }

  // The digits before a dot or an exponent.
  lemma WholePart(u: Chars, a: string, more: string)
    requires Usual(u) && Decimals(a) && a != "" && more != "" && more[0] in ".eE"
    ensures Number(u, a + more) == Fraction(u, a + more, |a|, '0', false)
  {
    var s := a + more;
    assert '.' in MARKS && IsLatin('e') && IsLatin('E');
    assert StartOfNumber(s) == NumStart(1, '0', false);
    SpanEndIs(s, 1, |a|, Digits(u, '0'));
  }

  // What is left at k is digits b, an exponent e or none, and the rest.
  predicate LeftAt(s: string, k: nat, b: string, e: string, rest: string) {
    k <= |s| && s[k..] == b + (e + rest) && Decimals(b) && (e == "" || ExpText(e))
  }

  lemma DigitsAt(u: Chars, s: string, k: nat, b: string, e: string, rest: string)
    requires Usual(u) && LeftAt(s, k, b, e, rest) && NumberEnds(u, rest)
    ensures k + |b| <= |s| && (k + |b| < |s| ==> !u.digit(s[k + |b|]))
    ensures forall i | k <= i < k + |b| :: u.digit(s[i])
  {
    var t := s[k..];
    forall i | k <= i < k + |b| ensures u.digit(s[i]) {
      assert s[i] == t[i - k] == b[i - k];
    }
    assert IsLatin('e') && IsLatin('E');
    if k + |b| < |s| { assert s[k + |b|] == t[|b|] == (e + rest)[0]; }
  }

  lemma AfterDigits(u: Chars, s: string, k: nat, b: string, e: string, rest: string)
    requires Usual(u) && LeftAt(s, k, b, e, rest) && NumberEnds(u, rest)
    ensures SpanEnd(s, k, u.digit) == SpanEnd(s, k, Digits(u, '0')) == k + |b| && s[k + |b|..] == e + rest
  {
    hide Usual, NumberEnds, SpanEnd;
    DigitsAt(u, s, k, b, e, rest);
    SpanEndIs(s, k, k + |b|, u.digit);
    SpanEndIs(s, k, k + |b|, Digits(u, '0'));
    assert s[k + |b|..] == s[k..][|b|..];
  }

  // An exponent at k is taken whole.
  lemma ExponentTaken(u: Chars, s: string, k: nat, dot: bool, e: string, rest: string)
    requires Usual(u) && k > 0 && ExpText(e) && k <= |s| && s[k..] == e + rest && NumberEnds(u, rest)
    ensures Exponent(u, s, k, '0', dot) == FloatNum(k + |e|)
  {
    var t := s[k..];
    var d := if e[1] == '+' || e[1] == '-' then 2 else 1;
    assert forall i | 0 <= i < |e| :: s[k + i] == t[i] == e[i];
    assert ExponentStart(s, k) == k + d + 1;
    forall i | k + d + 1 <= i < k + |e| ensures u.digit(s[i]) {
      assert s[i] == e[i - k] == e[d..][i - k - d];
    }
    if k + |e| < |s| { assert s[k + |e|] == t[|e|] == rest[0]; }
    SpanEndIs(s, k + d + 1, k + |e|, u.digit);
  }

  lemma NoExponent(u: Chars, s: string, k: nat, rest: string)
    requires Usual(u) && 0 < k <= |s| && s[k..] == rest && NumberEnds(u, rest)
    ensures Exponent(u, s, k, '0', true) == FloatNum(k)
  {
    assert IsLatin('e') && IsLatin('E');
    if k < |s| { assert s[k] == rest[0]; }
  }

  // From the first digit after a dot.
  lemma FractionTaken(u: Chars, s: string, k: nat, b: string, e: string, rest: string)
    requires Usual(u) && k > 0 && LeftAt(s, k, b, e, rest) && NumberEnds(u, rest)
    ensures Exponent(u, s, k + |b|, '0', true) == FloatNum(k + |b| + |e|)
  {
    hide Usual, Exponent, NumberEnds;
    AfterDigits(u, s, k, b, e, rest);
    if e == "" {
      assert e + rest == rest;
      NoExponent(u, s, k + |b|, rest);
    } else {
      ExponentTaken(u, s, k + |b|, true, e, rest);
    }
  }

  lemma DotNumber(u: Chars, a: string, b: string, e: string, rest: string)
    requires Usual(u) && Decimals(a) && Decimals(b) && a != "" && (e == "" || ExpText(e)) && NumberEnds(u, rest)
    ensures Number(u, a + ("." + (b + (e + rest)))) == FloatNum(|a| + 1 + |b| + |e|)
  {
    hide Usual, Exponent, NumberEnds, Number;
    var more := b + (e + rest);
    var s := a + ("." + more);
    assert s[|a|] == '.' && s[|a| + 1..] == more;
    WholePart(u, a, "." + more);
    AfterDigits(u, s, |a| + 1, b, e, rest);
    FractionTaken(u, s, |a| + 1, b, e, rest);
  }

  lemma DotFirst(u: Chars, b: string, e: string, rest: string)
    requires Usual(u) && Decimals(b) && b != "" && (e == "" || ExpText(e)) && NumberEnds(u, rest)
    ensures Number(u, "." + (b + (e + rest))) == FloatNum(1 + |b| + |e|)
  {
    hide Exponent, NumberEnds;
    var s, k := "." + (b + (e + rest)), 1 + |b|;
    assert StartOfNumber(s) == NumStart(2, '0', true);
    assert s[1] == b[0] && s[2..] == b[1..] + (e + rest);
    AfterDigits(u, s, 2, b[1..], e, rest);
    FractionTaken(u, s, 2, b[1..], e, rest);
    NoDot(u, s, k, e, rest);
  }

  lemma NoDot(u: Chars, s: string, k: nat, e: string, rest: string)
    requires k <= |s| && s[k..] == e + rest && (e == "" || ExpText(e)) && NumberEnds(u, rest)
    ensures !HasAt(s, k, '.')
  {
    if k < |s| { assert s[k] == (e + rest)[0]; }
  }

  lemma ExpNumber(u: Chars, a: string, e: string, rest: string)
    requires Usual(u) && Decimals(a) && a != "" && ExpText(e) && NumberEnds(u, rest)
    ensures Number(u, a + (e + rest)) == FloatNum(|a| + |e|)
  {
    var s := a + (e + rest);
    assert s[|a|..] == e + rest && s[|a|] == e[0];
    WholePart(u, a, e + rest);
    ExponentTaken(u, s, |a|, false, e, rest);
  }

  lemma FloatLexed(u: Chars, x: string, a: string, b: string, e: string, rest: string)
    requires Usual(u) && FloatText(x, a, b, e) && u.isFloat(x) && NumberEnds(u, rest)
    ensures Lex(u, [], x + rest) == Tok(Token(KFloat, x), [], rest)
  {
    hide Usual, Number, Lex, NumberEnds, ExpText;
    if x == a + ("." + (b + e)) {
      assert x + rest == a + ("." + (b + (e + rest)));
      if a == "" {
        assert x + rest == "." + (b + (e + rest));
        DotFirst(u, b, e, rest);
      } else {
        DotNumber(u, a, b, e, rest);
      }
    } else {
      ExpNumber(u, a, e, rest);
      assert x + rest == a + (e + rest);
    }
    NumberLexed(u, x, rest, FloatNum(|x|));
  }

  // ----- strings -----

  // The inside of a string: graphic characters but quotes, and after a
  // backslash a quote, too.
  predicate InsideText(u: Chars, b: string)
    decreases b
  {
    b == "" ||
    if b[0] == '\\' then |b| > 1 && u.graphic('\\') && (b[1] == '"' || u.graphic(b[1])) && InsideText(u, b[2..])
    else u.graphic(b[0]) && b[0] != '"' && b[0] != '\n' && InsideText(u, b[1..])
  }

  predicate QuotedText(u: Chars, x: string) {
    |x| > 1 && x[0] == x[|x| - 1] == '"' && InsideText(u, x[1..|x| - 1])
  }

  // The first character of it, with the one it escapes.
  lemma CharTaken(u: Chars, b: string, more: string)
    requires b != "" && InsideText(u, b)
    ensures
      var n := if b[0] == '\\' then 2 else 1;
      IsStrChar(u, b[0]) && CharInString(u, b + more) == StrChar(n, b[..n], true)
  {
    var n := if b[0] == '\\' then 2 else 1;
    assert (b + more)[..n] == b[..n];
  }

  lemma {:induction false} InsideTaken(u: Chars, b: string, rest: string)
    requires InsideText(u, b)
    ensures InString(u, b + ("\"" + rest)) == Closed(|b|, b)
    decreases b
  {
    var s := b + ("\"" + rest);
    if b == "" {
      assert s[0] == '"';
    } else {
      hide CharInString, IsStrChar;
      var n := if b[0] == '\\' then 2 else 1;
      CharTaken(u, b, "\"" + rest);
      assert s[n..] == b[n..] + ("\"" + rest);
      InsideTaken(u, b[n..], rest);
      assert b == b[..n] + b[n..];
    }
  }

  lemma QuoteStarts(u: Chars, s: string)
    requires Usual(u) && s != "" && s[0] == '"'
    ensures Lex(u, [], s) == StrTok(u, [], s)
  {
    hide StrTok;
    assert '"' in MARKS;
    LexHere(u, [], s);
  }

  // A quoted string is one token, whatever follows.
  lemma QuotedLexed(u: Chars, x: string, rest: string)
    requires Usual(u) && QuotedText(u, x) && u.isQuoted(x)
    ensures Lex(u, [], x + rest) == Tok(Token(KStr, x), [], rest)
  {
    hide Usual, InString, InsideText;
    var s, b := x + rest, x[1..|x| - 1];
    QuoteStarts(u, s);
    assert s[1..] == b + ("\"" + rest) && x == [] + "\"" + b + "\"";
    InsideTaken(u, b, rest);
    assert s[2 + |b|..] == rest;
  }

  // ----- names -----

  const RESERVED := ["true", "false", "levels", "soft", "vars", "consts", "rules"]

  // A letter or an underscore, and then letters, digits and underscores.
  predicate NameText(u: Chars, n: string) {
    && n != "" && (u.letter(n[0]) || n[0] == '_')
    && forall i | 0 <= i < |n| :: u.letter(n[i]) || u.digit(n[i]) || n[i] == '_'
  }

  predicate NameEnds(u: Chars, rest: string) {
    rest == [] || (!u.letter(rest[0]) && !u.digit(rest[0]) && rest[0] != '_')
  }

  // A name is one token, and a keyword if it is reserved.
  lemma NameLexed(u: Chars, n: string, rest: string)
    requires Usual(u) && NameText(u, n) && NameEnds(u, rest)
    ensures Lex(u, [], n + rest) == Tok(Token(if n in RESERVED then KKeyword else KId, n), [], rest)
  {
    var s := n + rest;
    SpanEndIs(s, 1, |n|, Alphas(u));
    NameStarts(u, s);
    assert s[..|n|] == n && s[|n|..] == rest && [] + n == n;
  }

  lemma NameStarts(u: Chars, s: string)
    requires Usual(u) && s != "" && (u.letter(s[0]) || s[0] == '_')
    ensures Lex(u, [], s) == IdTok([], s, IdLength(u, s))
  {
    hide IdTok;
    LexHere(u, [], s);
  }

  // ----- symbols -----

  const PAIRS := {"!>", "==", "!=", ">=", "<=", "=>", "&&", "||"}

  // A symbol as it stands before the rest: a pair, a character that is never
  // the first of a pair, or one that does not make a pair with the next.
  predicate SymbolText(d: string, rest: string) {
    || d in PAIRS
    || (|d| == 1 && d[0] in "()*/+-^,%;:?~")
    || (|d| == 1 && d[0] in "=!><&|" && (rest == "" || [d[0], rest[0]] !in PAIRS))
  }

  lemma PairsAreDoubles(d: string)
    ensures d in DOUBLES <==> d in PAIRS
    ensures d in PAIRS ==> |d| == 2 && StartsDouble(d[0])
  {
    assert DOUBLES[0] == "!>" && DOUBLES[1] == "==" && DOUBLES[2] == "!=" && DOUBLES[3] == ">=";
    assert DOUBLES[4] == "<=" && DOUBLES[5] == "=>" && DOUBLES[6] == "&&" && DOUBLES[7] == "||";
  }

  lemma SymbolStarts(u: Chars, s: string)
    requires Usual(u) && s != "" && s[0] in "()*/+-^,%;:?~=!><&|"
    ensures Lex(u, [], s) == SymbolTok([], s)
  {
    hide SymbolTok;
    assert s[0] in MARKS;
    LexHere(u, [], s);
  }

  lemma SymbolLexed(u: Chars, d: string, rest: string)
    requires Usual(u) && SymbolText(d, rest)
    ensures Lex(u, [], d + rest) == Tok(Token(KSymbol(d), d), [], rest)
  {
    var s := d + rest;
    var n := Least(2, |s|);
    PairsAreDoubles(d);
    PairsAreDoubles(s[..n]);
    SymbolStarts(u, s);
    SymbolTakes(d, rest);
  }

  lemma SymbolTakes(d: string, rest: string)
    requires SymbolText(d, rest) && (d in PAIRS ==> |d| == 2 && StartsDouble(d[0]))
    requires var s := d + rest; s[..Least(2, |s|)] in DOUBLES <==> s[..Least(2, |s|)] in PAIRS
    ensures SymbolTok([], d + rest) == Tok(Token(KSymbol(d), d), [], rest)
  {
    hide DOUBLES, PAIRS;
    var s := d + rest;
    var two := s[..Least(2, |s|)];
    assert [] + two == two && [] + d == d && s[..|d|] == d && s[|d|..] == rest;
    if |d| == 1 {
      if rest == "" { assert two == d; } else { assert two == [d[0], rest[0]]; }
    }
  }

  // An arrow is the symbol it stands for.
  lemma ArrowLexed(u: Chars, rest: string)
    requires Usual(u)
    ensures Lex(u, [], "\U{2192}" + rest) == Tok(Token(KSymbol("=>"), "=>"), [], rest)
    ensures Lex(u, [], "\U{219B}" + rest) == Tok(Token(KSymbol("!>"), "!>"), [], rest)
  {
    assert '\U{2192}' in MARKS && '\U{219B}' in MARKS;
    LexHere(u, [], "\U{2192}" + rest);
    LexHere(u, [], "\U{219B}" + rest);
  }
}
