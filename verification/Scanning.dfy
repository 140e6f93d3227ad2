// The lexer as it runs (lex/lex.go): a reader that can step back by one
// character, the characters accepted so far, the current line, and a token
// saved by Peek.  Every method is proved to do what the functions of Lexing
// say, and the line to be one plus the newlines read.
module Scanning {
  import opened Wrappers
  import opened Lexing

  datatype Rune = R(c: char) | RuneEof | Replacement

  function SavedAs(o: Option<Token>): Saved {
    if o.Some? then Kept(o.value) else Nothing
  }

  function Newlines(s: string): nat {
    if s == [] then 0 else Newlines(s[..|s| - 1]) + if s[|s| - 1] == '\n' then 1 else 0
  }

  class Lexer {
    const u: Chars
    const input: string
    var rpos: nat
    var lastRune: Rune
    var accepted: string
    var line: nat
    var tokSaved: Option<Token>

    constructor (chars: Chars, text: string)
      ensures Valid() && u == chars && input == text && View() == Scan([], text) && tokSaved == None
    {
      u, input, rpos, lastRune, accepted, line, tokSaved := chars, text, 0, Replacement, [], 1, None;
    }

    ghost predicate Valid()
      reads this
    {
      && rpos <= |input| && line == 1 + Newlines(input[..rpos])
      && (lastRune.R? ==> rpos > 0 && input[rpos - 1] == lastRune.c)
    }

    // What was accepted and what is ahead.
    ghost function View(): Scan
      reads this
    {
      Scan(accepted, if rpos <= |input| then input[rpos..] else [])
    }

    method Get() returns (r: Rune)
      requires Valid()
      modifies this`rpos, this`lastRune, this`accepted, this`line
      ensures Valid() && r == lastRune && r != Replacement
      ensures r == old(View()).Next() && View() == old(View()).Step()
    {
      if rpos == |input| {
        lastRune := RuneEof;
        return RuneEof;
      }
      var c := input[rpos];
      assert input[..rpos + 1][..rpos] == input[..rpos];
      if c == '\n' { line := line + 1; }
      lastRune, rpos, accepted := R(c), rpos + 1, accepted + [c];
      r := R(c);
    }

    // One step back; it cannot be taken twice.
    method Unget()
      requires Valid() && lastRune != Replacement
      modifies this`rpos, this`lastRune, this`accepted, this`line
      ensures Valid() && View() == if old(lastRune.R?) then old(View()).Back(old(lastRune).c) else old(View())
      ensures old(lastRune.RuneEof?) ==> lastRune.RuneEof?
    {
      if lastRune.RuneEof? { return; }
      assert input[..rpos][..rpos - 1] == input[..rpos - 1];
      assert input[rpos - 1..] == [lastRune.c] + input[rpos..];
      if lastRune.c == '\n' { line := line - 1; }
      rpos, lastRune := rpos - 1, Replacement;
      if accepted != [] { accepted := accepted[..|accepted| - 1]; }
    }

    // An empty token is an error, except at the end.
    method Accept() returns (tok: string)
      requires accepted != [] || lastRune.RuneEof?
      modifies this`accepted
      ensures tok == old(View()).acc && View() == Scan([], old(View()).rest)
    {
      tok, accepted := accepted, [];
    }

    // Take characters as long as they have a property, and the one after them.
    method GetWhile(p: char -> bool) returns (r: Rune)
      requires Valid()
      modifies this`rpos, this`lastRune, this`accepted, this`line
      ensures Valid() && r == lastRune && r != Replacement
      ensures View() == old(View()).While(p) && r == old(View()).After(p)
    {
      ghost var now := View();
      r := Get();
      while r.R? && p(r.c)
        invariant Valid() && r == lastRune && r != Replacement
        invariant r == now.Next() && View() == now.Step()
        invariant old(View()).While(p) == now.While(p) && old(View()).After(p) == now.After(p)
        decreases |now.rest|
      {
        now.WhileStep(p);
        now := View();
        r := Get();
      }
      now.WhileEnd(p);
    }

    // How a method that reads a token ended.
    ghost function Result(o: Option<Token>): Lexed
      reads this
    {
      if o.Some? then Tok(o.value, accepted, View().rest) else BadTok(accepted, View().rest)
    }

    // Characters with a property, and no more.
    method GetOnly(p: char -> bool, ghost v: Scan, ghost k: nat)
      requires Valid() && k <= |v.rest| && View() == v.Take(k)
      modifies this`rpos, this`lastRune, this`accepted, this`line
      ensures Valid() && View() == v.Take(SpanEnd(v.rest, k, p))
    {
      v.WhileFrom(k, p);
      var r := GetWhile(p);
      v.Take(SpanEnd(v.rest, k, p)).StepBack();
      Unget();
    }

    // Letters, digits and underscores.
    method LexId() returns (t: Token)
      requires Valid() && View().rest != [] && StartsId(u, View().rest[0])
      modifies this`rpos, this`lastRune, this`accepted, this`line
      ensures Valid()
      ensures var end := old(View()).Take(IdLength(u, old(View()).rest));
        t == Token(KId, end.acc) && View() == Scan([], end.rest)
    {
      ghost var v := View();
      hide IdLength;
      GetIdentifier(v);
      var text := Accept();
      t := Token(KId, text);
    }

    method GetIdentifier(ghost v: Scan)
      requires Valid() && View() == v && v.rest != []
      modifies this`rpos, this`lastRune, this`accepted, this`line
      ensures Valid() && View() == v.Take(IdLength(u, v.rest))
    {
      var _ := Get();
      assert View() == v.Take(1);
      GetOnly(Alphas(u), v, 1);
    }

    // A dot and a character, a base and a character, or the first digit.
    method StartNum() returns (base: char, hasDot: bool)
      requires Valid() && View().rest != []
      modifies this`rpos, this`lastRune, this`accepted, this`line
      ensures Valid()
      ensures var start := StartOfNumber(old(View()).rest);
        View() == old(View()).Take(start.n) && base == start.base && hasDot == start.dot
    {
      ghost var v := View();
      base, hasDot := '0', false;
      var r := Get();
      if r == R('.') {
        hasDot := true;
        v.TakeMore(1);
        var _ := Get();
      } else if r == R('0') {
        v.TakeMore(1);
        r := Get();
        if r.R? && IsBase(r.c) {
          base := r.c;
          v.TakeMore(2);
          var _ := Get();
        } else {
          v.Take(1).StepBack();
          Unget();
        }
      }
    }

    // An integer or a floating point number, or an error that takes what it
    // has read.
    method LexNum() returns (o: Option<Token>)
      requires Valid() && View().rest != []
      modifies this`rpos, this`lastRune, this`accepted, this`line
      ensures Valid() && Result(o) == NumTok(u, old(View()).acc, old(View()).rest)
    {
      hide NumAs, Fraction;
      ghost var v := View();
      ghost var start := StartOfNumber(v.rest);
      var base, hasDot := StartNum();
      v.WhileFrom(start.n, Digits(u, base));
      var r := GetWhile(Digits(u, base));
      o := EndInt(r, base, hasDot, v, SpanEnd(v.rest, start.n, Digits(u, base)));
    }

    // After the first digits and the character that follows them.
    method EndInt(r: Rune, base: char, hasDot: bool, ghost v: Scan, ghost k: nat) returns (o: Option<Token>)
      requires Valid() && 0 < k <= |v.rest| && View() == v.Take(k).Step() && r == v.Take(k).Next() == lastRune
      requires hasDot && k < |v.rest| ==> !u.digit(v.rest[k])
      modifies this`rpos, this`lastRune, this`accepted, this`line
      ensures Valid() && Result(o) == NumAs(u, v.acc, v.rest, Fraction(u, v.rest, k, base, hasDot))
    {
      v.TakeMore(k);
      if r != R('.') {
        o := EndNum(r, base, hasDot, v, k);
      } else if hasDot || base != '0' {
        var _ := Accept();
        o := None;
      } else {
        v.WhileFrom(k + 1, u.digit);
        var r' := GetWhile(u.digit);
        o := EndNum(r', base, true, v, SpanEnd(v.rest, k + 1, u.digit));
      }
    }

    // After all digits and the character that follows them.
    method EndNum(r: Rune, base: char, hasDot: bool, ghost v: Scan, ghost k: nat) returns (o: Option<Token>)
      requires Valid() && 0 < k <= |v.rest| && View() == v.Take(k).Step() && r == v.Take(k).Next() == lastRune
      requires hasDot && k < |v.rest| ==> !u.digit(v.rest[k])
      modifies this`rpos, this`lastRune, this`accepted, this`line
      ensures Valid() && Result(o) == NumAs(u, v.acc, v.rest, Exponent(u, v.rest, k, base, hasDot))
    {
      v.TakeMore(k);
      if r == R('E') || r == R('e') {
        o := EndExponent(base, v, k);
        return;
      }
      v.Take(k).StepBack();
      Unget();
      if !hasDot {
        o := TakeInt(v, k);
      } else {
        v.NoMoreDigits(u, k);
        o := EndFloat(v, k);
      }
    }

    method TakeInt(ghost v: Scan, ghost k: nat) returns (o: Option<Token>)
      requires Valid() && 0 < k <= |v.rest| && View() == v.Take(k)
      modifies this`rpos, this`lastRune, this`accepted, this`line
      ensures Valid() && Result(o) == NumAs(u, v.acc, v.rest, IntNum(k))
    {
      var text := Accept();
      o := if u.isInt(text) then Some(Token(KInt, text)) else None;
    }

    // After the letter of an exponent.
    method EndExponent(base: char, ghost v: Scan, ghost k: nat) returns (o: Option<Token>)
      requires Valid() && 0 < k < |v.rest| && View() == v.Take(k + 1) && v.rest[k] in "Ee"
      modifies this`rpos, this`lastRune, this`accepted, this`line
      ensures Valid() && Result(o) == NumAs(u, v.acc, v.rest, Exponent(u, v.rest, k, base, true))
    {
      ExponentSign(v, k);
      o := EndScaled(base, v, ExponentStart(v.rest, k));
    }

    // The digits of an exponent, which only a decimal number may have.
    method EndScaled(base: char, ghost v: Scan, ghost m: nat) returns (o: Option<Token>)
      requires Valid() && 0 < m <= |v.rest| && View() == v.Take(m)
      modifies this`rpos, this`lastRune, this`accepted, this`line
      ensures Valid() && Result(o) == NumAs(u, v.acc, v.rest, WithExponent(u, v.rest, m, base))
    {
      if base != '0' {
        var _ := Accept();
        return None;
      }
      o := EndFloat(v, m);
    }

    method ExponentSign(ghost v: Scan, ghost k: nat)
      requires Valid() && k < |v.rest| && View() == v.Take(k + 1)
      modifies this`rpos, this`lastRune, this`accepted, this`line
      ensures Valid() && View() == v.Take(ExponentStart(v.rest, k))
    {
      v.TakeMore(k + 1);
      var r := Get();
      if r == R('+') || r == R('-') {
        v.TakeMore(k + 2);
        r := Get();
      }
    }

    method EndFloat(ghost v: Scan, ghost k: nat) returns (o: Option<Token>)
      requires Valid() && 0 < k <= |v.rest| && View() == v.Take(k)
      modifies this`rpos, this`lastRune, this`accepted, this`line
      ensures Valid() && Result(o) == NumAs(u, v.acc, v.rest, FloatNum(SpanEnd(v.rest, k, u.digit)))
    {
      GetOnly(u.digit, v, k);
      ghost var end := v.Take(SpanEnd(v.rest, k, u.digit));
      var text := Accept();
      assert View() == Scan([], end.rest) && text == end.acc;
      o := if u.isFloat(text) then Some(Token(KFloat, text)) else None;
    }

    // ----- strings -----

    // The last character accepted is replaced by two.
    method Quote(q: char, c: char)
      requires Valid() && accepted != []
      modifies this`accepted
      ensures Valid()
      ensures var v := old(View()); View() == Scan(v.acc[..|v.acc| - 1] + [q, c], v.rest)
    {
      accepted := accepted[..|accepted| - 1] + [q] + [c];
    }

    // A string: a newline in it is kept as an escape.
    method LexString() returns (o: Option<Token>)
      requires Valid() && View().rest != [] && View().rest[0] == '"'
      modifies this`rpos, this`lastRune, this`accepted, this`line
      ensures Valid() && Result(o) == StrTok(u, old(View()).acc, old(View()).rest)
    {
      ghost var v := View();
      var _ := Get();
      v.StrTokIs(u);
      var r := InsideString(View());
      o := EndString(r);
    }

    method EndString(r: Rune) returns (o: Option<Token>)
      requires Valid() && (r == R('"') ==> View().rest != [])
      modifies this`rpos, this`lastRune, this`accepted, this`line
      ensures Valid() && Result(o) == old(View()).StrEnd(u, r == R('"'))
    {
      if r != R('"') { return None; }
      var _ := Get();
      var text := Accept();
      o := if u.isQuoted(text) then Some(Token(KStr, text)) else None;
    }

    // Up to the closing quote, or to what is wrong.
    method InsideString(ghost v: Scan) returns (r: Rune)
      requires Valid() && View() == v
      modifies this`rpos, this`lastRune, this`accepted, this`line
      ensures Valid() && (View(), r == R('"')) == v.Inside(u)
    {
      ghost var now := v;
      r := Get();
      while r.R? && IsStrChar(u, r.c)
        invariant Valid() && r == now.Next() == lastRune && View() == now.Step()
        invariant v.Inside(u) == now.Inside(u)
        decreases |now.rest|
      {
        now.InsideStep(u);
        var ok := KeepChar(r.c, now);
        if !ok { return RuneEof; }
        now := View();
        r := Get();
      }
      now.InsideEnd(u);
      now.StepBack();
      Unget();
    }

    // A newline is rewritten, and a backslash takes the next character too.
    method KeepChar(c: char, ghost v: Scan) returns (ok: bool)
      requires Valid() && v.rest != [] && c == v.rest[0] && View() == v.Take(1)
      modifies this`rpos, this`lastRune, this`accepted, this`line
      ensures Valid()
      ensures var k := CharInString(u, v.rest); View() == Scan(v.acc + k.kept, v.rest[k.n..]) && ok == k.ok
    {
      ok := true;
      if c == '\n' {
        Quote('\\', 'n');
      } else if c == '\\' {
        v.TakeMore(1);
        var r := Get();
        ok := r.R? && (r.c == '"' || IsStrChar(u, r.c));
      }
    }

    // ----- tokens -----

    // Up to the end of the line, or of the text; the end itself is not taken.
    method EatComment(ghost v: Scan)
      requires Valid() && View() == v
      modifies this`rpos, this`lastRune, this`accepted, this`line
      ensures Valid() && View().rest == AfterLine(v.rest) && (View().rest == [] || View().acc == [])
    {
      ghost var now := v;
      while true
        invariant Valid() && View() == now && AfterLine(v.rest) == AfterLine(now.rest)
        decreases |now.rest|
      {
        var rx := Get();
        if rx == RuneEof {
          Unget();
          break;
        }
        var _ := Accept();
        now := Scan([], now.rest[1..]);
        if rx == R('\n') { break; }
      }
    }

    // The symbol of two characters, if there is one.
    method MayLexDouble(ghost v: Scan) returns (symbol: string)
      requires Valid() && v.rest != [] && View() == v.Take(1)
      modifies this`rpos, this`lastRune, this`accepted, this`line
      ensures Valid()
      ensures var n := Least(2, |v.rest|); var two := v.acc + v.rest[..n];
        if two in DOUBLES then symbol == two && View() == v.Take(n) else symbol == [] && View() == v.Take(1)
    {
      v.TakeMore(1);
      v.Take(1).StepBack();
      var _ := Get();
      if accepted in DOUBLES {
        symbol := accepted;
      } else {
        symbol := [];
        Unget();
      }
    }

    method LexSymbol(c: char, ghost v: Scan) returns (o: Option<Token>)
      requires Valid() && v.rest != [] && c == v.rest[0] && View() == v.Take(1)
      modifies this`rpos, this`lastRune, this`accepted, this`line
      ensures Valid() && Result(o) == SymbolTok(v.acc, v.rest)
    {
      var symbol := "";
      if StartsDouble(c) { symbol := MayLexDouble(v); }
      assert v.rest[..1] == [c];
      var text := Accept();
      o := Some(Token(KSymbol(if symbol == "" then [c] else symbol), text));
    }

    // A token, from its first character.
    method LexFrom(c: char, ghost v: Scan) returns (o: Option<Token>)
      requires Valid() && v.rest != [] && View() == v.Take(1) && lastRune == R(c) && c == v.rest[0]
      modifies this`rpos, this`lastRune, this`accepted, this`line
      ensures Valid() && Result(o) == TokenAt(u, v.acc, v.rest)
    {
      v.StepBack();
      if IsArrow(c) {
        var _ := Accept();
        o := Some(Token(KSymbol(ArrowText(c)), ArrowText(c)));
      } else if IsSingle(c) || StartsDouble(c) {
        o := LexSymbol(c, v);
      } else if c == '"' {
        Unget();
        o := LexString();
      } else if c == '.' || u.digit(c) {
        Unget();
        o := LexNum();
      } else if StartsId(u, c) {
        Unget();
        var t := LexId();
        o := Some(if t.lexeme in KEYWORDS then t.(kind := KKeyword) else t);
      } else {
        o := None;
      }
    }

    // The lexer between two calls.
    ghost function Between(): Front
      reads this
    {
      Front(SavedAs(tokSaved), View().acc, View().rest)
    }

    // The saved token, or the next one after white space and comments.
    method Lex() returns (o: Option<Token>)
      requires Valid()
      modifies this
      ensures Valid() && (SavedAs(o), Between()) == LexFront(u, old(Between()))
    {
      if tokSaved.Some? {
        o, tokSaved := tokSaved, None;
        return;
      }
      var r, now := SkipBlank();
      LexHere(u, now.acc, now.rest);
      if r == RuneEof {
        var _ := Accept();
        o := Some(Token(KEof, ""));
      } else {
        o := LexFrom(r.c, now);
      }
    }

    // To the first character of a token, which is taken, or to the end.
    method SkipBlank() returns (r: Rune, ghost now: Scan)
      requires Valid()
      modifies this`rpos, this`lastRune, this`accepted, this`line
      ensures Valid() && r == now.Next() == lastRune && View() == now.Step()
      ensures r.R? ==> !u.space(r.c) && r.c != '#'
      ensures Lexing.Lex(u, old(View()).acc, old(View()).rest) == Lexing.Lex(u, now.acc, now.rest)
    {
      now := View();
      r := Get();
      while r.R? && (u.space(r.c) || r.c == '#')
        invariant Valid() && r == now.Next() == lastRune && View() == now.Step()
        invariant Lexing.Lex(u, old(View()).acc, old(View()).rest) == Lexing.Lex(u, now.acc, now.rest)
        decreases |now.rest|
      {
        EatBlank(r.c, now);
        now := View();
        r := Get();
      }
    }

    method EatBlank(c: char, ghost v: Scan)
      requires Valid() && v.rest != [] && v.rest[0] == c && View() == v.Take(1) && (u.space(c) || c == '#')
      modifies this`rpos, this`lastRune, this`accepted, this`line
      ensures Valid() && |View().rest| < |v.rest|
      ensures Lexing.Lex(u, v.acc, v.rest) == Lexing.Lex(u, View().acc, View().rest)
    {
      if u.space(c) {
        var _ := Accept();
      } else {
        AfterShorter(v.rest[1..]);
        EatComment(View());
      }
      LexBlank(u, v.acc, v.rest, View().acc);
    }

    lemma AfterShorter(s: string)
      ensures |AfterLine(s)| <= |s|
    {
    }

    // The next token stays.
    method Peek() returns (o: Option<Token>)
      requires Valid()
      modifies this
      ensures Valid() && (SavedAs(o), Between()) == PeekFront(u, old(Between()))
    {
      o := Lex();
      if o.Some? { tokSaved := o; }
    }
  }

  // What was accepted, and what is ahead.
  datatype Scan = Scan(acc: string, rest: string) {
    function Take(n: nat): Scan
      requires n <= |rest|
    {
      Scan(acc + rest[..n], rest[n..])
    }

    function Back(c: char): Scan {
      Scan(if acc == [] then [] else acc[..|acc| - 1], [c] + rest)
    }

    // A step back undoes a step.
    lemma StepBack()
      ensures rest != [] ==> Step().Back(rest[0]) == this
    {
    }

    lemma TakeMore(n: nat)
      requires n <= |rest|
      ensures Take(n).Next() == if n < |rest| then R(rest[n]) else RuneEof
      ensures Take(n).Step() == Take(if n < |rest| then n + 1 else n)
    {
      if n < |rest| { assert rest[..n] + rest[n..][..1] == rest[..n + 1]; }
    }

    // After the inside of a string, and whether it was closed.
    function Inside(u: Chars): (Scan, bool) {
      var i := InString(u, rest);
      (Scan(acc + i.kept, rest[i.n..]), i.Closed?)
    }

    lemma InsideStep(u: Chars)
      requires rest != [] && IsStrChar(u, rest[0])
      ensures
        var c := CharInString(u, rest);
        var next := Scan(acc + c.kept, rest[c.n..]);
        Inside(u) == if c.ok then next.Inside(u) else (next, false)
    {
      var c := CharInString(u, rest);
      var i := InString(u, rest[c.n..]);
      if c.ok {
        assert acc + (c.kept + i.kept) == (acc + c.kept) + i.kept;
        assert rest[c.n..][i.n..] == rest[c.n + i.n..];
      }
    }

    lemma InsideEnd(u: Chars)
      requires rest == [] || !IsStrChar(u, rest[0])
      ensures Inside(u) == (this, Next() == R('"'))
      ensures Next() == R('"') ==> rest != []
    {
      assert acc + [] == acc;
    }

    // From the closing quote, if there is one.
    function StrEnd(u: Chars, closed: bool): Lexed {
      if !closed then BadTok(acc, rest)
      else if u.isQuoted(Step().acc) then Tok(Token(KStr, Step().acc), [], Step().rest)
      else BadTok([], Step().rest)
    }

    // A string, from its opening quote.
    lemma StrTokIs(u: Chars)
      requires rest != [] && rest[0] == '"'
      ensures
        var (end, closed) := Step().Inside(u);
        StrTok(u, acc, rest) == end.StrEnd(u, closed) && (closed ==> end.rest != [])
    {
      var i := InString(u, rest[1..]);
      var begun := acc + "\"";
      assert Step().acc == begun by { assert rest[..1] == "\""; }
      var end := Scan(begun + i.kept, rest[1..][i.n..]);
      assert Step().Inside(u) == (end, i.Closed?);
      assert end.rest == rest[1 + i.n..];
      if i.Closed? { end.ClosingQuote(rest, 1 + i.n); }
    }

    lemma ClosingQuote(s: string, n: nat)
      requires n < |s| && rest == s[n..] && s[n] == '"'
      ensures Step() == Scan(acc + "\"", s[n + 1..])
    {
      assert rest[..1] == "\"" && rest[1..] == s[n + 1..];
    }

    lemma WhileFrom(k: nat, p: char -> bool)
      requires k <= |rest|
      ensures var n := SpanEnd(rest, k, p);
        Take(k).While(p) == Take(n).Step() && Take(k).After(p) == Take(n).Next()
    {
      TakeTake(k, Span(rest[k..], p));
    }

    lemma NoMoreDigits(u: Chars, k: nat)
      requires k <= |rest| && (k < |rest| ==> !u.digit(rest[k]))
      ensures SpanEnd(rest, k, u.digit) == k
    {
    }

    lemma TakeTake(a: nat, b: nat)
      requires a + b <= |rest|
      ensures Take(a).Take(b) == Take(a + b) && Take(a).rest == rest[a..]
    {
      assert rest[..a] + rest[a..][..b] == rest[..a + b];
    }

    // The character ahead, and the state after getting it.
    function Next(): Rune {
      if rest == [] then RuneEof else R(rest[0])
    }

    function Step(): Scan {
      if rest == [] then this else Take(1)
    }

    // After the characters with a property, and the one after them.
    function While(p: char -> bool): Scan {
      Take(Span(rest, p)).Step()
    }

    function After(p: char -> bool): Rune {
      Take(Span(rest, p)).Next()
    }

    lemma WhileStep(p: char -> bool)
      requires rest != [] && p(rest[0])
      ensures While(p) == Take(1).While(p) && After(p) == Take(1).After(p)
    {
      var n := Span(rest, p);
      assert rest[..1] + rest[1..][..n - 1] == rest[..n];
    }

    lemma WhileEnd(p: char -> bool)
      requires rest == [] || !p(rest[0])
      ensures While(p) == Step() && After(p) == Next()
    {
    }
  }
}
