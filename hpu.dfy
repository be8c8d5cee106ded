/** The line processor of hpu.rs. The first pass binds each label to the
    number of instructions before it; the second pass turns each line
    into its machine word, allocating variables as it meets them.

    A `Machine` is the state a pass reads and writes: the parser's
    symbol table, next variable address and result slot, the count of
    instruction lines, and the lexer's tokens and command type.
    `FirstPassStep` and `SecondPassStep` say what one line does to it;
    the methods of `Hpu` are proved to do exactly that. */
module Passes {
  import opened Errors
  import opened Base
  import opened StrUtil
  import opened Lexing
  import opened Parsing
  import opened Coding

  /** `HPU::is_comment`: the line starts with `//`. */
  predicate IsComment(s: string) {
    |s| >= 2 && s[0] == '/' && s[1] == '/'
  }

  /** `HPU::should_skip`: blank lines and comment lines. */
  predicate ShouldSkip(s: string) {
    EmptyLine(s) || IsComment(s)
  }

  /** `HPU::command_type`: by the first and last characters. */
  function CommandTypeOf(s: string): CommandType {
    if |s| >= 1 && s[0] == '@' then ACommand
    else if |s| >= 1 && s[0] == '(' && s[|s| - 1] == ')' then LCommand
    else CCommand
  }

  datatype Machine = Machine(
    symbols: map<string, nat>,
    varmem: nat,
    result: Option<Command>,
    validLine: nat,
    tokens: seq<Token>,
    cmdType: Option<CommandType>)

  /** The machine after `Lexer::set` on `line`. */
  function Lexed(m: Machine, line: string): Machine {
    m.(tokens := LexTokens(line), cmdType := LexType(line))
  }

  /** The line the parser sees after lexing `line` (number `num`). */
  function LineOf(m: Machine, num: nat, line: string): Line {
    Line(LexTokens(line), line, num)
  }

  /** A line `command_type` calls L (it starts with `(` and ends with
      `)`) lexes to tokens starting with LEFTBRACE. */
  lemma LabelLineTokens(line: string)
    requires CommandTypeOf(line) == LCommand
    ensures !EmptyLine(line) && LexTokens(line) != [] && LexTokens(line)[0].tokenType == LeftBrace
  {
    LexTrimmed(line);
    ShapeL(line);
  }

  /** `HPU::first_pass` on line `num`. A skipped line changes nothing; an
      L line is lexed and parsed and its label bound to the count of
      instruction lines so far; any other line is counted. The lexer
      cannot fail here, since a line that is not skipped is not blank,
      and the label is always there after a successful parse. */
  function FirstPassStep(m: Machine, num: nat, line: string): (Machine, Outcome) {
    if ShouldSkip(line) then (m, Pass)
    else if CommandTypeOf(line) == LCommand then LabelPass(m, num, line)
    else (m.(validLine := m.validLine + 1), Pass)
  }

  /** What both passes do first with a line that is not blank: set the
      lexer to it and run `parse_command` on its tokens from index 0. */
  function LexParse(m: Machine, num: nat, line: string): (Machine, Outcome) {
    var p := ParseStep(LineOf(m, num, line), State(0, m.result));
    (Lexed(m, line).(result := p.state.result), p.outcome)
  }

  /** The first pass on an L line: lex, parse, bind the label. */
  function LabelPass(m: Machine, num: nat, line: string): (Machine, Outcome)
    requires CommandTypeOf(line) == LCommand
  {
    var (m1, o) := LexParse(m, num, line);
    if o.Fail? then (m1, o)
    else
      LabelLineTokens(line);
      ParsePass(LineOf(m, num, line), m.result);
      (m1.(symbols := m1.symbols[m1.result.value.name := m.validLine]), Pass)
  }

  /** `HPU::second_pass` on line `num`: the word for the line, or "" for
      a skipped line or a label. The unwraps on the parser's result
      after a successful parse are safe by `ParsePass`. */
  function SecondPassStep(m: Machine, num: nat, line: string): (Machine, Result<string>) {
    if ShouldSkip(line) then (m, Success("")) else TranslateLine(m, num, line)
  }

  /** The second pass on a line that is not skipped: lex, parse, then
      code the result. */
  function TranslateLine(m: Machine, num: nat, line: string): (Machine, Result<string>) {
    var (m1, o) := LexParse(m, num, line);
    if o.Fail? then (m1, Failure(o.error))
    else
      ParsePass(LineOf(m, num, line), m.result);
      match m1.result.value
      case A(v) =>
        var res := ResolveA(m1.symbols, m1.varmem, v);
        (m1.(symbols := res.symbols, varmem := res.varmem), Success(res.word))
      case C(_, _, _) => (m1, Success(TranslateC(m1.result.value)))
      case L(_) => (m1, Success(""))
  }

  /** The first pass counts every instruction line, binds the label of
      every good L line to that count and touches nothing else; its only
      errors are the parser's, and those name the line. */
  lemma FirstPassFrame(m: Machine, num: nat, line: string)
    ensures var (m', o) := FirstPassStep(m, num, line);
      && m'.varmem == m.varmem
      && (ShouldSkip(line) ==> m' == m && o == Pass)
      && (!ShouldSkip(line) && CommandTypeOf(line) != LCommand ==>
            o == Pass && m' == m.(validLine := m.validLine + 1))
      && (!ShouldSkip(line) && CommandTypeOf(line) == LCommand ==>
            && m'.validLine == m.validLine && m'.tokens == LexTokens(line)
            && (o.Fail? ==> m'.symbols == m.symbols && Reported(LineOf(m, num, line), o.error))
            && (o.Pass? ==>
                  && |m'.tokens| >= 3 && m'.tokens[1].tokenType == Symbol && m'.tokens[1].repr !in PREDEFINED
                  && m'.symbols == m.symbols[m'.tokens[1].repr := m.validLine]))
  {
    if !ShouldSkip(line) && CommandTypeOf(line) == LCommand {
      LabelLineTokens(line);
      LParse(LineOf(m, num, line), m.result);
    }
  }

  /** The second pass binds at most one new variable: the symbol of an
      A line that names no number, predefined symbol or known symbol,
      at the old `varmem`. Every other line leaves the table and
      `varmem` alone. */
  lemma SecondPassTable(m: Machine, num: nat, line: string)
    ensures var (m', o) := SecondPassStep(m, num, line);
      && m'.validLine == m.validLine
      && (ShouldSkip(line) ==> m' == m && o == Success(""))
      && ((m'.symbols == m.symbols && m'.varmem == m.varmem) || NewVariable(m, line, m', o))
  {
    if !ShouldSkip(line) {
      TranslateLineTable(m, num, line);
    }
  }

  /** `m'` differs from `m` by one new variable, named by the A command
      just parsed from `line`. */
  predicate NewVariable(m: Machine, line: string, m': Machine, o: Result<string>) {
    && CommandTypeOf(Trim(line)) == ACommand && o.Success?
    && m'.result.Some? && m'.result.value.A?
    && m'.result.value.value !in m.symbols
    && m'.symbols == m.symbols[m'.result.value.value := m.varmem]
    && m'.varmem == m.varmem + 1
  }

  /** A line whose first token is AT is an A line for `command_type`. */
  lemma AtLine(line: string)
    requires !ShouldSkip(line) && LexTokens(line) != [] && LexTokens(line)[0].tokenType == At
    ensures CommandTypeOf(Trim(line)) == ACommand
  {
    LexFirstToken(line);
    TypeAgrees(line);
  }

  lemma ResolveLine(m: Machine, line: string, m1: Machine)
    requires CommandTypeOf(Trim(line)) == ACommand && m1.result.Some? && m1.result.value.A?
    ensures var res := ResolveA(m.symbols, m.varmem, m1.result.value.value);
      var m' := m1.(symbols := res.symbols, varmem := res.varmem);
      (m'.symbols == m.symbols && m'.varmem == m.varmem) || NewVariable(m, line, m', Success(res.word))
  {
    ResolveAFrame(m.symbols, m.varmem, m1.result.value.value);
  }

  lemma TranslateLineTable(m: Machine, num: nat, line: string)
    requires !ShouldSkip(line)
    ensures var (m', o) := TranslateLine(m, num, line);
      && m'.validLine == m.validLine
      && ((m'.symbols == m.symbols && m'.varmem == m.varmem) || NewVariable(m, line, m', o))
  {
    var (m1, o1) := LexParse(m, num, line);
    var (m', o) := TranslateLine(m, num, line);
    if o1.Pass? {
      ParsePass(LineOf(m, num, line), m.result);
      if m1.result.value.A? {
        AtLine(line);
        var res := ResolveA(m.symbols, m.varmem, m1.result.value.value);
        assert (m', o) == (m1.(symbols := res.symbols, varmem := res.varmem), Success(res.word));
        ResolveLine(m, line, m1);
      } else {
        assert m' == m1;
      }
    } else {
      assert m' == m1;
    }
  }

  /** Every error of the second pass names the line it is about. */
  lemma SecondPassErrors(m: Machine, num: nat, line: string)
    ensures var (m', o) := SecondPassStep(m, num, line);
      o.Failure? ==> Reported(LineOf(m, num, line), o.error) && m'.symbols == m.symbols && m'.varmem == m.varmem
  {
    if !ShouldSkip(line) {
      var ln := LineOf(m, num, line);
      LexFirstToken(line);
      if ln.tokens[0].tokenType == At {
        AParse(ln, m.result);
      } else if ln.tokens[0].tokenType == LeftBrace {
        LParse(ln, m.result);
      } else {
        CParse(ln, m.result);
      }
    }
  }

  /** A label line gives no word, an A line a word starting with `0`
      and a C line a word of bits starting with `111`: 16 bits long when
      the parsed command has a comp, 12 when it has none. */
  lemma SecondPassWords(m: Machine, num: nat, line: string)
    requires !ShouldSkip(line)
    ensures var (m', o) := SecondPassStep(m, num, line);
      && (o.Success? && CommandTypeOf(Trim(line)) == LCommand ==> o.value == "")
      && (o.Success? && CommandTypeOf(Trim(line)) == ACommand ==> o.value != "" && o.value[0] == '0')
      && (o.Success? && CommandTypeOf(Trim(line)) == CCommand ==>
            && m'.result.Some? && m'.result.value.C?
            && IsBits(o.value) && o.value[..3] == "111"
            && (m'.result.value.comp.Some? ==> |o.value| == 16)
            && (m'.result.value.comp.None? ==> |o.value| == 12))
  {
    var (m1, o1) := LexParse(m, num, line);
    var (m', o) := SecondPassStep(m, num, line);
    assert (m', o) == TranslateLine(m, num, line);
    if o1.Pass? {
      ParsePass(LineOf(m, num, line), m.result);
      LexFirstToken(line);
      TypeAgrees(line);
      match m1.result.value
      case A(v) =>
        var res := ResolveA(m1.symbols, m1.varmem, v);
        assert o == Success(res.word);
        ResolveAWord(m1.symbols, m1.varmem, v);
      case C(_, _, _) =>
        assert o == Success(TranslateC(m1.result.value));
        TranslateCShape(m1.result.value);
      case L(_) =>
        assert o == Success("");
    }
  }

  /** The second pass writes a word exactly for an instruction line
      (one neither skipped nor, once trimmed, a label), and never moves
      the instruction count. */
  lemma SecondPassEmits(m: Machine, num: nat, line: string)
    ensures var (m', o) := SecondPassStep(m, num, line);
      o.Success? ==>
        && (|o.value| > 0 <==> !ShouldSkip(line) && CommandTypeOf(Trim(line)) != LCommand)
        && m'.validLine == m.validLine
  {
    SecondPassTable(m, num, line);
    if !ShouldSkip(line) {
      SecondPassWords(m, num, line);
    }
  }

  /** The lexer and `command_type` agree on every line that is not
      blank, once it is trimmed, as the assembler does before each
      pass. */
  lemma TypeAgrees(line: string)
    requires !EmptyLine(line)
    ensures LexType(line) == Some(CommandTypeOf(Trim(line)))
  {
    LexOfLine(line);
  }

  /** The assertions of the `is_comment`/`command_type` unit test. */
  lemma CommandDetectionExamples(newline: string, slash: string, comment: string, a: string, c: string, l: string)
    requires newline == "\n" && slash == "/" && comment == "//"
    requires a == "@INFINITE_LOOP" && c == "M=-1" && l == "(INFINITE_LOOP)"
    ensures EmptyLine(newline) && EmptyLine("")
    ensures !IsComment("") && !IsComment(slash) && IsComment(comment)
    ensures CommandTypeOf(a) == ACommand && CommandTypeOf(c) == CCommand && CommandTypeOf(l) == LCommand
  {
    assert AllWhitespace(newline) by {
      assert IsWhitespace(newline[0]);
    }
  }

  lemma RegisterLineWords(line: string)
    requires line == "@R15"
    ensures |line| >= 2 && line[0] == '@' && NoWhitespace(line[1..])
    ensures line[1..] == "R15" && Classify("R15") == Token("R15", Symbol)
  {
  }

  lemma RegisterLineTokens(line: string)
    requires line == "@R15"
    ensures LexTokens(line) == [AtToken, Token("R15", Symbol)]
  {
    RegisterLineWords(line);
    LexAWord(line);
  }

  lemma ParseRegisterTokens(ln: Line, res: Option<Command>)
    requires ln.tokens == [AtToken, Token("R15", Symbol)]
    ensures ParseStep(ln, State(0, res)) == Step(State(2, Some(A("R15"))), Pass)
  {
    AParse(ln, res);
  }

  /** `@R15` parses with the cursor on 2. */
  lemma ParseRegisterLine(line: string, num: nat, res: Option<Command>)
    requires line == "@R15"
    ensures ParseStep(Line(LexTokens(line), line, num), State(0, res)) == Step(State(2, Some(A("R15"))), Pass)
  {
    RegisterLineTokens(line);
    ParseRegisterTokens(Line(LexTokens(line), line, num), res);
  }

  lemma LabelLineWords(line: string)
    requires line == "(    LABEL       )"
    ensures line == ['('] + "    " + "LABEL" + "       " + [')']
    ensures AllWhitespace("    ") && AllWhitespace("       ") && NoWhitespace("LABEL")
    ensures Classify("LABEL") == Token("LABEL", Symbol)
  {
  }

  lemma LabelLineLexes(line: string)
    requires line == "(    LABEL       )"
    ensures LexTokens(line) == [LeftBraceToken, Token("LABEL", Symbol), RightBraceToken]
  {
    LabelLineWords(line);
    LexLabel(line, "    ", "LABEL", "       ");
  }

  lemma LabelNotPredefined(w: string)
    requires w == "LABEL"
    ensures w !in PREDEFINED
  {
    PredefinedListed();
  }

  lemma ParseLabelTokens(ln: Line, res: Option<Command>)
    requires ln.tokens == [LeftBraceToken, Token("LABEL", Symbol), RightBraceToken]
    ensures ParseStep(ln, State(0, res)) == Step(State(3, Some(L("LABEL"))), Pass)
  {
    LabelNotPredefined(ln.tokens[1].repr);
    LParse(ln, res);
  }

  /** `(    LABEL       )` parses with the cursor on 3. */
  lemma ParseLabelLine(line: string, num: nat, res: Option<Command>)
    requires line == "(    LABEL       )"
    ensures ParseStep(Line(LexTokens(line), line, num), State(0, res)) == Step(State(3, Some(L("LABEL"))), Pass)
  {
    LabelLineLexes(line);
    ParseLabelTokens(Line(LexTokens(line), line, num), res);
  }

  lemma ComputeLineWords(line: string)
    requires line == "MD=M-1;JMP"
    ensures line == "MD" + ['='] + "M-1" + [';'] + "JMP"
    ensures NoWhitespace("MD") && NoWhitespace("M-1") && NoWhitespace("JMP")
    ensures '=' !in "MD" && '=' !in "M-1" && '=' !in "JMP" && ';' !in "M-1" && ';' !in "JMP"
    ensures Classify("MD") == Token("MD", Symbol) && Classify("JMP") == Token("JMP", Symbol)
  {
  }

  lemma DecrementIsExpression(c: string)
    requires c == "M-1"
    ensures Classify(c) == Token(c, Expression)
  {
    assert !IsDigit(c[0]);
    assert !IsSymbolChar(c[1]);
  }

  lemma ComputeLineLexes(line: string)
    requires line == "MD=M-1;JMP"
    ensures LexTokens(line) ==
      [Token("MD", Symbol), EqualToken, Token("M-1", Expression), SemicolonToken, Token("JMP", Symbol)]
  {
    ComputeLineWords(line);
    DecrementIsExpression("M-1");
    LexCompute(line, "MD", "M-1", "JMP");
  }

  /** `MD=M-1;JMP` parses with the cursor on 5. */
  lemma ParseComputeLine(line: string, num: nat, res: Option<Command>)
    requires line == "MD=M-1;JMP"
    ensures ParseStep(Line(LexTokens(line), line, num), State(0, res)) ==
      Step(State(5, Some(C(Some("MD"), Some("M-1"), Some("JMP")))), Pass)
  {
    ComputeLineLexes(line);
    FullCExample(Line(LexTokens(line), line, num), res);
  }

  /** The assembler's per-file processor. */
  class Hpu {
    const parser: Parser
    const lexer: Lexer
    var validLine: nat

    /** `HPU::new`: a fresh parser and lexer, no instruction lines yet. */
    constructor ()
      ensures fresh(parser) && fresh(lexer)
      ensures Now() == Machine(map[], 16, None, 0, [], None)
    {
      parser := new Parser();
      lexer := new Lexer();
      validLine := 0;
    }

    function Now(): Machine
      reads this, parser, lexer
    {
      Machine(parser.symbols, parser.varmem, parser.result, validLine, lexer.tokens, lexer.cmdType)
    }

    /** `HPU::first_pass`. */
    method FirstPass(num: nat, line: string) returns (r: Outcome)
      modifies this, parser, lexer
      ensures (Now(), r) == FirstPassStep(old(Now()), num, line)
    {
      if ShouldSkip(line) {
        return Pass;
      }
      if CommandTypeOf(line) == LCommand {
        r := BindLabel(num, line);
      } else {
        validLine := validLine + 1;
        r := Pass;
      }
    }

    /** `lexer.set(line)?` followed by `Parser::parse_command`; the
        lexer cannot fail on a line that is not blank. */
    method LexAndParse(num: nat, line: string) returns (r: Outcome)
      requires !EmptyLine(line)
      modifies parser, lexer
      ensures (Now(), r) == LexParse(old(Now()), num, line)
    {
      var lexed := lexer.Set(line);
      assert lexed == Pass;
      var parg := new ParserArg(parser, lexer.tokens, line, num);
      r := parg.ParseCommand();
    }

    /** The L branch of `HPU::first_pass`. */
    method BindLabel(num: nat, line: string) returns (r: Outcome)
      requires CommandTypeOf(line) == LCommand
      modifies parser, lexer
      ensures (Now(), r) == LabelPass(old(Now()), num, line)
    {
      LabelLineTokens(line);
      r := LexAndParse(num, line);
      if r.Fail? {
        return;
      }
      ParsePass(LineOf(old(Now()), num, line), old(parser.result));
      parser.symbols := parser.symbols[parser.result.value.name := validLine];
    }

    /** `HPU::second_pass`. */
    method SecondPass(num: nat, line: string) returns (r: Result<string>)
      modifies parser, lexer
      ensures (Now(), r) == SecondPassStep(old(Now()), num, line)
    {
      if ShouldSkip(line) {
        return Success("");
      }
      ghost var m := Now();
      var o := LexAndParse(num, line);
      ghost var m1 := Now();
      assert SecondPassStep(m, num, line) == TranslateLine(m, num, line);
      if o.Fail? {
        return Failure(o.error);
      }
      ParsePass(LineOf(m, num, line), m.result);
      match parser.result.value
      case A(v) =>
        var w := TranslateA(parser, v);
        r := Success(w);
        ghost var res := ResolveA(m1.symbols, m1.varmem, v);
        assert Now() == m1.(symbols := res.symbols, varmem := res.varmem);
      case C(_, _, _) =>
        r := Success(TranslateC(parser.result.value));
      case L(_) =>
        r := Success("");
    }
  }
}
