/** The lexer of lexer.rs. A `Lexer` keeps the tokens of the line it was
    last given and the command type it guessed from the line's shape.
    The pure functions below say what `Set` produces; the class methods
    are proved to produce exactly that. */
module Lexing {
  import opened Errors
  import opened Base
  import opened StrUtil

  predicate IsDigit(c: char) {
    '0' <= c <= '9'
  }

  predicate IsSymbolStart(c: char) {
    c == '_' || 'A' <= c <= 'Z' || 'a' <= c <= 'z'
  }

  predicate IsSymbolChar(c: char) {
    IsSymbolStart(c) || IsDigit(c)
  }

  /** The NUMBER pattern `^\d+$`, with ASCII digits. */
  predicate IsNumeral(s: string) {
    |s| >= 1 && forall i :: 0 <= i < |s| ==> IsDigit(s[i])
  }

  /** The SYMBOL pattern `^[_[:alpha:]]+[_0-9A-Za-z]*$`: a letter or `_`
      followed by letters, digits and `_`. */
  predicate IsIdentifier(s: string) {
    |s| >= 1 && IsSymbolStart(s[0]) && forall i :: 1 <= i < |s| ==> IsSymbolChar(s[i])
  }

  const AtToken: Token := Token("@", At)
  const LeftBraceToken: Token := Token("(", LeftBrace)
  const RightBraceToken: Token := Token(")", RightBrace)
  const EqualToken: Token := Token("=", Equal)
  const SemicolonToken: Token := Token(";", Semicolon)

  /** The kinds a piece of text can be classified as. */
  predicate IsWordKind(k: TokenType) {
    k == Number || k == Symbol || k == Expression
  }

  /** `Lexer::classify`: NUMBER before SYMBOL, anything else is an
      EXPRESSION, so classification never fails. */
  function Classify(s: string): (t: Token)
    ensures t.repr == s && IsWordKind(t.tokenType)
    ensures t.tokenType == Number <==> IsNumeral(s)
    ensures t.tokenType == Symbol <==> IsIdentifier(s)
  {
    if IsNumeral(s) then Token(s, Number)
    else if IsIdentifier(s) then Token(s, Symbol)
    else Token(s, Expression)
  }

  function ClassifyAll(pieces: seq<string>): seq<Token> {
    if pieces == [] then [] else [Classify(pieces[0])] + ClassifyAll(pieces[1..])
  }

  lemma {:induction false} ClassifyAllPointwise(pieces: seq<string>)
    ensures |ClassifyAll(pieces)| == |pieces|
    ensures forall i :: 0 <= i < |pieces| ==> ClassifyAll(pieces)[i] == Classify(pieces[i])
  {
    if pieces != [] {
      ClassifyAllPointwise(pieces[1..]);
    }
  }

  /** Classifying one more piece appends one more token. */
  lemma ClassifyAllSnoc(pieces: seq<string>, i: nat)
    requires i < |pieces|
    ensures ClassifyAll(pieces[..i + 1]) == ClassifyAll(pieces[..i]) + [Classify(pieces[i])]
  {
    ClassifyAllPointwise(pieces[..i + 1]);
    ClassifyAllPointwise(pieces[..i]);
  }

  /** A token as `add_tokens` makes it: visible text of a word kind. */
  predicate IsWordToken(t: Token) {
    t.repr != [] && NoWhitespace(t.repr) && IsWordKind(t.tokenType)
  }

  /** What `add_tokens` appends for `s`: one classified token per
      whitespace-separated piece. */
  function Tokens(s: string): seq<Token> {
    ClassifyAll(SplitWhitespace(s))
  }

  /** Every token `add_tokens` makes has visible, whitespace-free text of
      a word kind, and their texts are the pieces of `s` in order. */
  lemma TokensAreWordTokens(s: string)
    ensures forall i :: 0 <= i < |Tokens(s)| ==> IsWordToken(Tokens(s)[i])
    ensures |Tokens(s)| == |SplitWhitespace(s)|
    ensures forall i :: 0 <= i < |Tokens(s)| ==> Tokens(s)[i].repr == SplitWhitespace(s)[i]
  {
    SplitWhitespacePieces(s);
    ClassifyAllPointwise(SplitWhitespace(s));
  }

  predicate HasKind(toks: seq<Token>, k: TokenType) {
    exists i :: 0 <= i < |toks| && toks[i].tokenType == k
  }

  /** Tokens for the part of a compute form after the optional `=`: the
      comp pieces, a SEMICOLON if `;` falls within, and the jump pieces. */
  function JumpTail(e: string): seq<Token> {
    if FallWithin(e, ';') then
      var a := Split(e, ';');
      SplitFirst(e, ';');
      Tokens(a[0]) + [SemicolonToken] + Tokens(a[1])
    else Tokens(e)
  }

  /** Tokens of a line in compute form: the dest pieces and an EQUAL if
      `=` falls within the line, then the rest of the line before any
      second `=`. */
  function ComputeTokens(e: string): seq<Token> {
    if FallWithin(e, '=') then
      var a := Split(e, '=');
      SplitFirst(e, '=');
      Tokens(a[0]) + [EqualToken] + JumpTail(a[1])
    else JumpTail(e)
  }

  /** The command type a non-blank trimmed line `e` has by its shape:
      `@…`, `(…)`, or the compute form. */
  function Shape(e: string): CommandType
    requires e != []
  {
    if e[0] == '@' then ACommand
    else if e[0] == '(' && e[|e| - 1] == ')' then LCommand
    else CCommand
  }

  /** The tokens of a non-blank trimmed line `e`, by its shape. */
  function ShapeTokens(e: string): seq<Token>
    requires e != []
  {
    match Shape(e)
    case ACommand => [AtToken] + Tokens(e[1..])
    case LCommand => [LeftBraceToken] + Tokens(e[1..|e| - 1]) + [RightBraceToken]
    case CCommand => ComputeTokens(e)
  }

  /** The tokens `Lexer::set` leaves for `line`. */
  function LexTokens(line: string): seq<Token> {
    if EmptyLine(line) then []
    else
      EmptyLineTrim(line);
      ShapeTokens(Trim(line))
  }

  /** The command type `Lexer::set` leaves for `line`. */
  function LexType(line: string): Option<CommandType> {
    if EmptyLine(line) then None
    else
      EmptyLineTrim(line);
      Some(Shape(Trim(line)))
  }

  const EmptyLineError: Error := HackError(None, None, "Empty line")

  /** On a line that is not blank the lexer works on its trimmed form. */
  lemma LexOfLine(line: string)
    requires !EmptyLine(line)
    ensures Trim(line) != [] && !IsWhitespace(Trim(line)[0])
    ensures LexTokens(line) == ShapeTokens(Trim(line)) && LexType(line) == Some(Shape(Trim(line)))
  {
    EmptyLineTrim(line);
  }

  lemma ShapeA(e: string)
    requires e != [] && e[0] == '@'
    ensures Shape(e) == ACommand && ShapeTokens(e) == [AtToken] + Tokens(e[1..])
  {
  }

  lemma ShapeL(e: string)
    requires e != [] && e[0] == '(' && e[|e| - 1] == ')'
    ensures Shape(e) == LCommand && ShapeTokens(e) == [LeftBraceToken] + Tokens(e[1..|e| - 1]) + [RightBraceToken]
  {
  }

  lemma ShapeC(e: string)
    requires e != [] && e[0] != '@' && !(e[0] == '(' && e[|e| - 1] == ')')
    ensures Shape(e) == CCommand && ShapeTokens(e) == ComputeTokens(e)
  {
  }

  class Lexer {
    var tokens: seq<Token>
    var cmdType: Option<CommandType>

    /** `Lexer::new`. */
    constructor ()
      ensures tokens == [] && cmdType == None
    {
      tokens := [];
      cmdType := None;
    }

    /** `Lexer::add_tokens`: appends one token per whitespace-separated
        piece of `s`; it never fails. */
    method AddTokens(s: string) returns (r: Outcome)
      modifies this
      ensures tokens == old(tokens) + Tokens(s) && cmdType == old(cmdType)
      ensures r == Pass
    {
      var subs := SplitWhitespace(s);
      for i := 0 to |subs|
        invariant tokens == old(tokens) + ClassifyAll(subs[..i])
        invariant cmdType == old(cmdType)
      {
        tokens := tokens + [Classify(subs[i])];
        ClassifyAllSnoc(subs, i);
      }
      assert subs[..|subs|] == subs;
      r := Pass;
    }

    /** `Lexer::set`: forgets the previous line, then lexes `expr`. */
    method Set(expr: string) returns (r: Outcome)
      modifies this
      ensures tokens == LexTokens(expr) && cmdType == LexType(expr)
      ensures r == if EmptyLine(expr) then Fail(EmptyLineError) else Pass
    {
      tokens := [];
      cmdType := None;
      if EmptyLine(expr) {
        LexBlank(expr);
        return Fail(EmptyLineError);
      }
      var e := Trim(expr);
      LexOfLine(expr);
      if e[0] == '@' {
        ShapeA(e);
        cmdType := Some(ACommand);
        tokens := [AtToken];
        r := AddTokens(e[1..]);
      } else if e[0] == '(' && e[|e| - 1] == ')' {
        ShapeL(e);
        cmdType := Some(LCommand);
        tokens := [LeftBraceToken];
        r := AddTokens(e[1..|e| - 1]);
        tokens := tokens + [RightBraceToken];
      } else {
        ShapeC(e);
        cmdType := Some(CCommand);
        r := AddCompute(e);
        assert [] + ComputeTokens(e) == ComputeTokens(e);
      }
    }

    /** The compute-form branch of `Lexer::set`: the dest pieces and
        EQUAL when `=` falls within `e`, then the rest before any second
        `=`. */
    method AddCompute(e: string) returns (r: Outcome)
      modifies this
      ensures tokens == old(tokens) + ComputeTokens(e) && cmdType == old(cmdType)
      ensures r == Pass
    {
      var rest := e;
      if FallWithin(e, '=') {
        var a := Split(e, '=');
        SplitFirst(e, '=');
        r := AddTokens(a[0]);
        rest := a[1];
        tokens := tokens + [EqualToken];
      }
      r := AddJumpTail(rest);
    }

    /** The `;` step of the compute-form branch of `Lexer::set`: the comp
        pieces and SEMICOLON when `;` falls within `e`, then the jump
        pieces. */
    method AddJumpTail(e: string) returns (r: Outcome)
      modifies this
      ensures tokens == old(tokens) + JumpTail(e) && cmdType == old(cmdType)
      ensures r == Pass
    {
      var rest := e;
      if FallWithin(e, ';') {
        var a := Split(e, ';');
        SplitFirst(e, ';');
        r := AddTokens(a[0]);
        rest := a[1];
        tokens := tokens + [SemicolonToken];
      }
      r := AddTokens(rest);
    }
  }

  /** A line with nothing but whitespace gives no tokens and no type. */
  lemma LexBlank(line: string)
    requires EmptyLine(line)
    ensures LexTokens(line) == [] && LexType(line) == None
  {
  }

  lemma VisibleHead(s: string)
    requires s != [] && !IsWhitespace(s[0])
    ensures Visible(s) != [] && Tokens(s) != []
  {
    assert Visible(s) == [s[0]] + Visible(s[1..]);
    SplitWhitespacePieces(s);
    assert Concat([]) == [];
  }

  /** A trimmed line that is not blank always lexes to at least one token,
      and its first token tells its shape: AT exactly for `@…` lines and
      LEFTBRACE exactly for `(…)` lines. */
  lemma FirstTokenShape(e: string)
    requires e != [] && !IsWhitespace(e[0])
    ensures ShapeTokens(e) != []
    ensures ShapeTokens(e)[0].tokenType == At <==> Shape(e) == ACommand
    ensures ShapeTokens(e)[0].tokenType == LeftBrace <==> Shape(e) == LCommand
  {
    if Shape(e) == CCommand {
      var t := ComputeTokens(e);
      if FallWithin(e, '=') {
        var a := Split(e, '=');
        SplitFirst(e, '=');
        assert a[0] == e[..|a[0]|];
        assert a[0] != [] && a[0][0] == e[0];
        VisibleHead(a[0]);
        assert t[0] == Tokens(a[0])[0];
      } else if FallWithin(e, ';') {
        var a := Split(e, ';');
        SplitFirst(e, ';');
        assert a[0] != [] && a[0][0] == e[0];
        VisibleHead(a[0]);
        assert t[0] == Tokens(a[0])[0];
      } else {
        VisibleHead(e);
      }
    }
  }

  /** On a line that is not blank, the lexer's tokens begin with AT
      exactly when it sets type A, and with LEFTBRACE exactly when it
      sets type L. */
  lemma LexFirstToken(line: string)
    requires !EmptyLine(line)
    ensures LexTokens(line) != []
    ensures LexTokens(line)[0].tokenType == At <==> LexType(line) == Some(ACommand)
    ensures LexTokens(line)[0].tokenType == LeftBrace <==> LexType(line) == Some(LCommand)
  {
    EmptyLineTrim(line);
    FirstTokenShape(Trim(line));
  }

  /** L-shape: LEFTBRACE first, RIGHTBRACE last, interior pieces between. */
  lemma ShapeLCommand(e: string)
    requires e != [] && Shape(e) == LCommand
    ensures var t := ShapeTokens(e);
      |t| >= 2 && t[0] == LeftBraceToken && t[|t| - 1] == RightBraceToken
      && t[1..|t| - 1] == Tokens(e[1..|e| - 1])
  {
    var t := ShapeTokens(e);
    assert t[1..|t| - 1] == Tokens(e[1..|e| - 1]);
  }

  /** Pieces never look like punctuation tokens. */
  lemma TokensAreWords(s: string)
    ensures !HasKind(Tokens(s), Equal) && !HasKind(Tokens(s), Semicolon)
    ensures !HasKind(Tokens(s), At) && !HasKind(Tokens(s), LeftBrace) && !HasKind(Tokens(s), RightBrace)
  {
    TokensAreWordTokens(s);
  }

  lemma HasKindAppend(a: seq<Token>, b: seq<Token>, k: TokenType)
    ensures HasKind(a + b, k) <==> HasKind(a, k) || HasKind(b, k)
  {
    if HasKind(a + b, k) {
      var i :| 0 <= i < |a + b| && (a + b)[i].tokenType == k;
      if i >= |a| {
        assert b[i - |a|].tokenType == k;
      } else {
        assert a[i].tokenType == k;
      }
    }
    if HasKind(a, k) {
      var i :| 0 <= i < |a| && a[i].tokenType == k;
      assert (a + b)[i].tokenType == k;
    }
    if HasKind(b, k) {
      var i :| 0 <= i < |b| && b[i].tokenType == k;
      assert (a + b)[|a| + i].tokenType == k;
    }
  }

  /** The compute form's jump part holds a SEMICOLON exactly when `;`
      falls within it, and never an EQUAL. */
  lemma JumpTailSemicolon(e: string)
    ensures HasKind(JumpTail(e), Semicolon) <==> FallWithin(e, ';')
    ensures !HasKind(JumpTail(e), Equal)
  {
    if FallWithin(e, ';') {
      var a := Split(e, ';');
      SplitFirst(e, ';');
      TokensAreWords(a[0]);
      TokensAreWords(a[1]);
      HasKindAppend(Tokens(a[0]), [SemicolonToken], Semicolon);
      HasKindAppend(Tokens(a[0]), [SemicolonToken], Equal);
      HasKindAppend(Tokens(a[0]) + [SemicolonToken], Tokens(a[1]), Semicolon);
      HasKindAppend(Tokens(a[0]) + [SemicolonToken], Tokens(a[1]), Equal);
      assert [SemicolonToken][0].tokenType == Semicolon;
      assert JumpTail(e) == Tokens(a[0]) + [SemicolonToken] + Tokens(a[1]);
    } else {
      TokensAreWords(e);
    }
  }

  /** In compute form there is an EQUAL token exactly when `=` falls
      within the line; the tokens never hold more than one EQUAL. */
  lemma ComputeEqual(e: string)
    ensures HasKind(ComputeTokens(e), Equal) <==> FallWithin(e, '=')
  {
    var t := ComputeTokens(e);
    if FallWithin(e, '=') {
      var a := Split(e, '=');
      SplitFirst(e, '=');
      assert t[|Tokens(a[0])|] == EqualToken;
    } else {
      JumpTailSemicolon(e);
    }
  }

  /** Only the text between the first and the second `=` carries on:
      whatever follows a second `=` is dropped. */
  lemma ComputeDropsAfterSecondEqual(d: string, m: string, x: string)
    requires d != [] && m != [] && '=' !in d && '=' !in m
    ensures ComputeTokens(d + "=" + m + "=" + x) == Tokens(d) + [EqualToken] + JumpTail(m)
  {
    var e := d + "=" + m + "=" + x;
    var rest := m + ['='] + x;
    assert e == d + ['='] + rest;
    SplitAfter(d, '=', rest);
    SplitAfter(m, '=', x);
    var a := Split(e, '=');
    assert a == [d] + ([m] + Split(x, '='));
    assert a[0] == d && a[1] == m;
    assert FallWithin(e, '=') by {
      FallWithinMeaning(e, '=');
      assert e[0] == d[0] && e[|d|] == '=';
      assert e[1..|e| - 1][|d| - 1] == '=';
    }
  }


  /** A single visible word lexes to its one classified token. */
  lemma TokensOfWord(w: string)
    requires w != [] && NoWhitespace(w)
    ensures Tokens(w) == [Classify(w)]
  {
    SplitWhitespaceWord(w);
    assert [w][1..] == [];
    assert ClassifyAll([w]) == [Classify(w)] + ClassifyAll([]);
  }

  /** `@` followed by one visible word lexes to AT and that word. */
  lemma LexAWord(line: string)
    requires |line| >= 2 && line[0] == '@' && NoWhitespace(line[1..])
    ensures LexTokens(line) == [AtToken, Classify(line[1..])] && LexType(line) == Some(ACommand)
  {
    assert !IsWhitespace(line[|line| - 1]) by {
      assert line[|line| - 1] == line[1..][|line| - 2];
    }
    assert !EmptyLine(line);
    TrimKeeps(line);
    LexOfLine(line);
    ShapeA(line);
    TokensOfWord(line[1..]);
  }

  lemma RegisterLineShape(register: string)
    requires register == "@R2"
    ensures |register| >= 2 && register[0] == '@' && NoWhitespace(register[1..])
    ensures register[1..] == "R2" && Classify("R2") == Token("R2", Symbol)
  {
  }

  lemma ConstantLineShape(constant: string)
    requires constant == "@234"
    ensures |constant| >= 2 && constant[0] == '@' && NoWhitespace(constant[1..])
    ensures constant[1..] == "234" && Classify("234") == Token("234", Number)
  {
  }

  /** The two lines of the lexer's unit test. */
  lemma LexExamples(register: string, constant: string)
    requires register == "@R2" && constant == "@234"
    ensures LexTokens(register) == [AtToken, Token("R2", Symbol)]
    ensures LexTokens(constant) == [AtToken, Token("234", Number)]
  {
    RegisterLineShape(register);
    LexAWord(register);
    ConstantLineShape(constant);
    LexAWord(constant);
  }

  lemma DestJumpKeysNamed()
    ensures forall i :: 0 <= i < |DestKeys| ==> IsIdentifier(DestKeys[i])
    ensures forall i :: 0 <= i < |JumpKeys| ==> IsIdentifier(JumpKeys[i])
  {
  }

  /** Every DEST and JUMP mnemonic is a plain name and lexes as SYMBOL. */
  lemma DestJumpKeysAreSymbols()
    ensures forall k :: k in DEST ==> Classify(k).tokenType == Symbol
    ensures forall k :: k in JUMP ==> Classify(k).tokenType == Symbol
  {
    DestKeysAreSymbols();
    JumpKeysAreSymbols();
  }

  lemma DestKeysAreSymbols()
    ensures forall k :: k in DEST ==> Classify(k).tokenType == Symbol
  {
    DestListed();
    DestJumpKeysNamed();
    forall k | k in DEST ensures Classify(k).tokenType == Symbol {
      var i :| 0 <= i < |DestKeys| && DestKeys[i] == k;
    }
  }

  lemma JumpKeysAreSymbols()
    ensures forall k :: k in JUMP ==> Classify(k).tokenType == Symbol
  {
    JumpListed();
    DestJumpKeysNamed();
    forall k | k in JUMP ensures Classify(k).tokenType == Symbol {
      var i :| 0 <= i < |JumpKeys| && JumpKeys[i] == k;
    }
  }

  /** A line with visible characters at both ends lexes by its shape as
      it stands. */
  lemma LexTrimmed(line: string)
    requires line != [] && !IsWhitespace(line[0]) && !IsWhitespace(line[|line| - 1])
    ensures !EmptyLine(line)
    ensures LexTokens(line) == ShapeTokens(line) && LexType(line) == Some(Shape(line))
  {
    assert !AllWhitespace(line);
    TrimKeeps(line);
    LexOfLine(line);
  }

  lemma TokensPadded(a: string, w: string, b: string)
    requires AllWhitespace(a) && AllWhitespace(b) && w != [] && NoWhitespace(w)
    ensures Tokens(a + w + b) == [Classify(w)]
  {
    SplitWhitespacePadded(a, w, b);
    assert ClassifyAll([w]) == [Classify(w)] + ClassifyAll([]);
  }

  /** `(`, a word with any whitespace around it, `)`: LEFTBRACE, the
      word, RIGHTBRACE. */
  lemma LexLabel(line: string, a: string, w: string, b: string)
    requires AllWhitespace(a) && AllWhitespace(b) && w != [] && NoWhitespace(w)
    requires line == ['('] + a + w + b + [')']
    ensures LexTokens(line) == [LeftBraceToken, Classify(w), RightBraceToken]
    ensures LexType(line) == Some(LCommand)
  {
    var inner := a + w + b;
    assert line == ['('] + inner + [')'];
    TokensPadded(a, w, b);
    LexBracketed(inner);
  }

  /** A line in parentheses lexes as a label line around the tokens of
      what is inside. */
  lemma LexBracketed(inner: string)
    ensures var line := ['('] + inner + [')'];
      && LexTokens(line) == [LeftBraceToken] + Tokens(inner) + [RightBraceToken]
      && LexType(line) == Some(LCommand)
  {
    var line := ['('] + inner + [')'];
    assert line[0] == '(' && line[|line| - 1] == ')' && line[1..|line| - 1] == inner;
    LexTrimmed(line);
    ShapeL(line);
  }

  /** Two pieces joined by `c` split back at the first `c`. */
  lemma SplitTwo(x: string, c: char, y: string)
    requires x != [] && y != [] && c !in x && c !in y && x[0] != c
    ensures FallWithin(x + [c] + y, c)
    ensures Split(x + [c] + y, c) == [x, y]
  {
    var s := x + [c] + y;
    FallWithinMeaning(s, c);
    assert s[|x|] == c && 1 <= |x| < |s| - 1;
    assert s[1..|s| - 1][|x| - 1] == c;
    assert Join([x, y], c) == x + [c] + Join([y], c);
    SplitJoin([x, y], c);
  }

  lemma JumpTailOfWords(c: string, j: string)
    requires c != [] && j != [] && NoWhitespace(c) && NoWhitespace(j)
    requires ';' !in c && ';' !in j
    ensures JumpTail(c + [';'] + j) == [Classify(c), SemicolonToken, Classify(j)]
  {
    SplitTwo(c, ';', j);
    TokensOfWord(c);
    TokensOfWord(j);
  }

  lemma ComputeOfWords(d: string, tail: string)
    requires d != [] && tail != [] && NoWhitespace(d) && '=' !in d && '=' !in tail
    ensures ComputeTokens(d + ['='] + tail) == [Classify(d), EqualToken] + JumpTail(tail)
  {
    SplitTwo(d, '=', tail);
    TokensOfWord(d);
  }

  lemma NotInJoined(x: string, sep: char, y: string, ch: char)
    requires ch !in x && ch !in y && ch != sep
    ensures ch !in x + [sep] + y
  {
  }

  /** `dest=comp;jump` with three plain words: each word, with EQUAL and
      SEMICOLON between. */
  lemma LexCompute(line: string, d: string, c: string, j: string)
    requires line == d + ['='] + c + [';'] + j
    requires d != [] && c != [] && j != []
    requires NoWhitespace(d) && NoWhitespace(c) && NoWhitespace(j)
    requires '=' !in d && '=' !in c && '=' !in j && ';' !in c && ';' !in j
    requires d[0] != '@' && d[0] != '('
    ensures LexTokens(line) == [Classify(d), EqualToken, Classify(c), SemicolonToken, Classify(j)]
    ensures LexType(line) == Some(CCommand)
  {
    var tail := c + [';'] + j;
    ComputeLineEnds(line, d, c, j);
    LexTrimmed(line);
    ShapeC(line);
    NotInJoined(c, ';', j, '=');
    ComputeOfWords(d, tail);
    JumpTailOfWords(c, j);
    Five(Classify(d), EqualToken, [Classify(c), SemicolonToken, Classify(j)]);
  }

  lemma Five(a: Token, b: Token, rest: seq<Token>)
    requires |rest| == 3
    ensures [a, b] + rest == [a, b, rest[0], rest[1], rest[2]]
  {
  }

  lemma ComputeLineEnds(line: string, d: string, c: string, j: string)
    requires line == d + ['='] + c + [';'] + j && d != [] && j != []
    ensures line == d + ['='] + (c + [';'] + j)
    ensures line != [] && line[0] == d[0] && line[|line| - 1] == j[|j| - 1]
  {
  }
}
