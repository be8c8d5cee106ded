/** The recursive-descent parser of parser.rs.

    A `ParserArg` is a cursor over the tokens of one line: it knows the
    line's text and number for error reports and points at the `Parser`
    whose result slot the parse fills. Every `expect_*` step either
    advances the cursor by one or reports an error.

    The pure functions (`KindStep`, `TableStep`, ..., `ParseStep`) say
    what each step does to the cursor and the result slot; the methods of
    `ParserArg` are proved to do exactly that, and the lemmas at the end
    are about the functions. */
module Parsing {
  import opened Errors
  import opened Base
  import Lexing

  /** What a successful parse leaves in the parser's result slot. The
      source keeps one record with an optional part per command kind and
      a tag; only the part named by the tag is ever read, so one value
      per kind is kept here. */
  datatype Command =
    | A(value: string)
    | C(dest: Option<string>, comp: Option<string>, jump: Option<string>)
    | L(name: string)

  /** The token list of one line with the line's text and number. */
  datatype Line = Line(tokens: seq<Token>, content: string, lineNum: nat)

  /** The parts of the parse state a step may change. */
  datatype State = State(index: nat, result: Option<Command>)

  datatype Step = Step(state: State, outcome: Outcome)

  /** The name `{:?}` prints for a token kind. */
  function KindName(k: TokenType): string {
    match k
    case At => "AT"
    case Number => "NUMBER"
    case Symbol => "SYMBOL"
    case LeftBrace => "LEFTBRACE"
    case RightBrace => "RIGHTBRACE"
    case Equal => "EQUAL"
    case Semicolon => "SEMICOLON"
    case Expression => "EXPRESSION"
  }

  /** `hack_report!`: an error tagged with the line's number and text. */
  function Report(ln: Line, comment: string): Error {
    HackError(Some(ln.lineNum), Some(ln.content), comment)
  }

  /** Every error a step returns is a panic or names the line it is about. */
  predicate Reported(ln: Line, e: Error) {
    e.Panic? || (e.sourceLineNum == Some(ln.lineNum) && e.sourceLine == Some(ln.content))
  }

  const OutOfBounds: Outcome := Fail(Panic(IndexOutOfBounds))

  /** The contract every single-token `expect_*` step keeps: on success
      the cursor moves on by exactly one, on failure it stays where it
      was and the error names the line. */
  predicate SingleStep(ln: Line, s: State, r: Step) {
    && (r.outcome.Pass? ==> r.state.index == s.index + 1 && s.index < |ln.tokens|)
    && (r.outcome.Fail? ==> r.state.index == s.index && Reported(ln, r.outcome.error))
    && (r.outcome == OutOfBounds <==> s.index >= |ln.tokens|)
  }

  /** The steps made by `create_expect!`: the current token must be of
      kind `k`. */
  function KindStep(ln: Line, s: State, k: TokenType): (r: Step)
    ensures SingleStep(ln, s, r) && r.state.result == s.result
    ensures r.outcome.Pass? <==> s.index < |ln.tokens| && ln.tokens[s.index].tokenType == k
  {
    if s.index >= |ln.tokens| then Step(s, OutOfBounds)
    else
      var t := ln.tokens[s.index];
      if t.tokenType == k then Step(s.(index := s.index + 1), Pass)
      else Step(s, Fail(Report(ln, "Expect TOKENTYPE::" + KindName(k) + ", but got " + KindName(t.tokenType))))
  }

  /** The steps made by `create_expect_predefined!`: the current token
      must be of one of `kinds` and its text a key of `table`. The
      message for a wrong kind names the first of `kinds`. */
  function TableStep(ln: Line, s: State, table: map<string, string>, name: string, kinds: seq<TokenType>): (r: Step)
    requires |kinds| >= 1
    ensures SingleStep(ln, s, r) && r.state.result == s.result
    ensures r.outcome.Pass? <==>
      s.index < |ln.tokens| && ln.tokens[s.index].tokenType in kinds && ln.tokens[s.index].repr in table
  {
    if s.index >= |ln.tokens| then Step(s, OutOfBounds)
    else
      var t := ln.tokens[s.index];
      if t.tokenType in kinds then
        if t.repr in table then Step(s.(index := s.index + 1), Pass)
        else Step(s, Fail(Report(ln, t.repr + " is not defined in table " + name + "!")))
      else Step(s, Fail(Report(ln, "Expected TOKENTYPE::" + KindName(kinds[0]) + " but found " + KindName(t.tokenType))))
  }

  /** `expect_number`: a NUMBER becomes the value of an A command. */
  function NumberStep(ln: Line, s: State): (r: Step)
    ensures SingleStep(ln, s, r)
    ensures r.outcome.Pass? <==> s.index < |ln.tokens| && ln.tokens[s.index].tokenType == Number
    ensures r.outcome.Pass? ==> r.state.result == Some(A(ln.tokens[s.index].repr))
    ensures r.outcome.Fail? ==> r.state.result == s.result
  {
    if s.index >= |ln.tokens| then Step(s, OutOfBounds)
    else
      var t := ln.tokens[s.index];
      if t.tokenType == Number then Step(State(s.index + 1, Some(A(t.repr))), Pass)
      else Step(s, Fail(Report(ln, "No number found")))
  }

  /** `expect_symbol_va`: a SYMBOL becomes the value of an A command. */
  function SymbolVaStep(ln: Line, s: State): (r: Step)
    ensures SingleStep(ln, s, r)
    ensures r.outcome.Pass? <==> s.index < |ln.tokens| && ln.tokens[s.index].tokenType == Symbol
    ensures r.outcome.Pass? ==> r.state.result == Some(A(ln.tokens[s.index].repr))
    ensures r.outcome.Fail? ==> r.state.result == s.result
  {
    if s.index >= |ln.tokens| then Step(s, OutOfBounds)
    else
      var t := ln.tokens[s.index];
      if t.tokenType == Symbol then Step(State(s.index + 1, Some(A(t.repr))), Pass)
      else Step(s, Fail(Report(ln, "No symbol found")))
  }

  const ReservedLabel: string := "Using reserved keyword as label is not allowed"

  /** `expect_symbol_vl`: a label must be a SYMBOL that is not a
      predefined name. */
  function SymbolVlStep(ln: Line, s: State): (r: Step)
    ensures SingleStep(ln, s, r) && r.state.result == s.result
    ensures r.outcome.Pass? <==>
      s.index < |ln.tokens| && ln.tokens[s.index].tokenType == Symbol && ln.tokens[s.index].repr !in PREDEFINED
  {
    if s.index >= |ln.tokens| then Step(s, OutOfBounds)
    else
      var t := ln.tokens[s.index];
      if t.tokenType == Symbol then
        if t.repr in PREDEFINED then Step(s, Fail(Report(ln, ReservedLabel)))
        else Step(s.(index := s.index + 1), Pass)
      else Step(s, Fail(Report(ln, "No label found")))
  }

  /** `expect_l_command`: LEFTBRACE, a label, RIGHTBRACE; the label is
      read from `tokens[1]`. */
  function LStep(ln: Line, s: State): Step {
    var p1 := KindStep(ln, s, LeftBrace);
    if p1.outcome.Fail? then p1
    else
      var p2 := SymbolVlStep(ln, p1.state);
      if p2.outcome.Fail? then p2
      else
        var p3 := KindStep(ln, p2.state, RightBrace);
        if p3.outcome.Fail? then p3
        else if |ln.tokens| < 2 then Step(p3.state, OutOfBounds)
        else Step(p3.state.(result := Some(L(ln.tokens[1].repr))), Pass)
  }

  /** `expect_c_command_rec` with the command built so far in `cmd`. At
      each position: the end of the tokens ends the command; a token
      followed by EQUAL is a dest; a SEMICOLON introduces the jump, which
      ends the command; anything else is a comp. Each part is recorded
      before it is checked. */
  function CRecStep(ln: Line, i: nat, cmd: Command): Step
    requires cmd.C?
    decreases |ln.tokens| - i
  {
    var toks := ln.tokens;
    if i == |toks| then Step(State(i, Some(cmd)), Pass)
    else if i > |toks| then Step(State(i, Some(cmd)), OutOfBounds)
    else if i + 1 < |toks| && toks[i + 1].tokenType == Equal then
      var c1 := cmd.(dest := Some(toks[i].repr));
      var p1 := TableStep(ln, State(i, Some(c1)), DEST, "DEST", [Symbol]);
      if p1.outcome.Fail? then p1
      else
        var p2 := KindStep(ln, p1.state, Equal);
        if p2.outcome.Fail? then p2
        else CRecStep(ln, p2.state.index, c1)
    else if toks[i].tokenType == Semicolon then
      if i + 1 >= |toks| then Step(State(i, Some(cmd)), OutOfBounds)
      else
        var c1 := cmd.(jump := Some(toks[i + 1].repr));
        var p1 := KindStep(ln, State(i, Some(c1)), Semicolon);
        if p1.outcome.Fail? then p1
        else TableStep(ln, p1.state, JUMP, "JUMP", [Symbol])
    else
      var c1 := cmd.(comp := Some(toks[i].repr));
      var p1 := TableStep(ln, State(i, Some(c1)), COMP, "COMP", [Expression, Symbol, Number]);
      if p1.outcome.Fail? then p1
      else CRecStep(ln, p1.state.index, c1)
  }

  const EmptyC: Command := C(None, None, None)

  /** `expect_c_command`: start an empty C command, then recurse. */
  function CStep(ln: Line, s: State): Step {
    CRecStep(ln, s.index, EmptyC)
  }

  /** `expect_a_command`: step over AT, then look at `tokens[1]`. */
  function AStep(ln: Line, s: State): Step {
    var s1 := s.(index := s.index + 1);
    if |ln.tokens| < 2 then Step(s1, OutOfBounds)
    else
      match ln.tokens[1].tokenType
      case Number => NumberStep(ln, s1)
      case Symbol => SymbolVaStep(ln, s1)
      case _ => Step(s1, Fail(Report(ln, "Illegal A command")))
  }

  /** `parse_command`: dispatch on the kind of `tokens[0]`. */
  function ParseStep(ln: Line, s: State): Step {
    if |ln.tokens| == 0 then Step(s, OutOfBounds)
    else
      match ln.tokens[0].tokenType
      case At => AStep(ln, s)
      case LeftBrace => LStep(ln, s)
      case _ => CStep(ln, s)
  }

  /** The parser state the passes share: the symbol table, the next free
      variable address and the result slot. */
  class Parser {
    var symbols: map<string, nat>
    var varmem: nat
    var result: Option<Command>

    /** `Parser::new`: no symbols yet (predefined names are looked up in
        their own table), variables from address 16, no result. */
    constructor ()
      ensures symbols == map[] && varmem == 16 && result == None
    {
      symbols := map[];
      varmem := 16;
      result := None;
    }
  }

  class ParserArg {
    const parser: Parser
    const tokens: seq<Token>
    var index: nat
    const content: string
    const lineNum: nat

    constructor (parser: Parser, tokens: seq<Token>, content: string, lineNum: nat)
      ensures this.parser == parser && this.tokens == tokens && index == 0
      ensures this.content == content && this.lineNum == lineNum
    {
      this.parser := parser;
      this.tokens := tokens;
      this.index := 0;
      this.content := content;
      this.lineNum := lineNum;
    }

    function Ctx(): Line {
      Line(tokens, content, lineNum)
    }

    function Now(): State
      reads this, parser
    {
      State(index, parser.result)
    }

    /** `ParserArg::advance`. */
    method Advance()
      modifies this`index
      ensures index == old(index) + 1
    {
      index := index + 1;
    }

    /** `create_expect!` instances: `expect_leftbrace`, `expect_rightbrace`,
        `expect_equal`, `expect_semicolon`. */
    method ExpectKind(k: TokenType) returns (r: Outcome)
      modifies this`index
      ensures Step(Now(), r) == KindStep(Ctx(), old(Now()), k)
    {
      if index >= |tokens| {
        return OutOfBounds;
      }
      var t := tokens[index];
      if t.tokenType == k {
        Advance();
        r := Pass;
      } else {
        r := Fail(Report(Ctx(), "Expect TOKENTYPE::" + KindName(k) + ", but got " + KindName(t.tokenType)));
      }
    }

    /** `create_expect_predefined!` instances: `expect_ccmd_dest`,
        `expect_ccmd_comp`, `expect_ccmd_jump`. */
    method ExpectTable(table: map<string, string>, name: string, kinds: seq<TokenType>) returns (r: Outcome)
      requires |kinds| >= 1
      modifies this`index
      ensures Step(Now(), r) == TableStep(Ctx(), old(Now()), table, name, kinds)
    {
      if index >= |tokens| {
        return OutOfBounds;
      }
      var t := tokens[index];
      if t.tokenType in kinds {
        if t.repr in table {
          Advance();
          return Pass;
        }
        return Fail(Report(Ctx(), t.repr + " is not defined in table " + name + "!"));
      }
      r := Fail(Report(Ctx(), "Expected TOKENTYPE::" + KindName(kinds[0]) + " but found " + KindName(t.tokenType)));
    }

    /** `expect_number`. */
    method ExpectNumber() returns (r: Outcome)
      modifies this`index, parser`result
      ensures Step(Now(), r) == NumberStep(Ctx(), old(Now()))
    {
      if index >= |tokens| {
        return OutOfBounds;
      }
      var t := tokens[index];
      if t.tokenType == Number {
        parser.result := Some(A(t.repr));
        Advance();
        r := Pass;
      } else {
        r := Fail(Report(Ctx(), "No number found"));
      }
    }

    /** `expect_symbol_va`. */
    method ExpectSymbolVa() returns (r: Outcome)
      modifies this`index, parser`result
      ensures Step(Now(), r) == SymbolVaStep(Ctx(), old(Now()))
    {
      if index >= |tokens| {
        return OutOfBounds;
      }
      var t := tokens[index];
      if t.tokenType == Symbol {
        parser.result := Some(A(t.repr));
        Advance();
        r := Pass;
      } else {
        r := Fail(Report(Ctx(), "No symbol found"));
      }
    }

    /** `expect_symbol_vl`. */
    method ExpectSymbolVl() returns (r: Outcome)
      modifies this`index
      ensures Step(Now(), r) == SymbolVlStep(Ctx(), old(Now()))
    {
      if index >= |tokens| {
        return OutOfBounds;
      }
      var t := tokens[index];
      if t.tokenType == Symbol {
        if t.repr in PREDEFINED {
          return Fail(Report(Ctx(), ReservedLabel));
        }
        Advance();
        r := Pass;
      } else {
        r := Fail(Report(Ctx(), "No label found"));
      }
    }

    /** `expect_l_command`. */
    method ExpectLCommand() returns (r: Outcome)
      modifies this`index, parser`result
      ensures Step(Now(), r) == LStep(Ctx(), old(Now()))
    {
      r := ExpectKind(LeftBrace);
      if r.Fail? {
        return;
      }
      r := ExpectSymbolVl();
      if r.Fail? {
        return;
      }
      r := ExpectKind(RightBrace);
      if r.Fail? {
        return;
      }
      if |tokens| < 2 {
        return OutOfBounds;
      }
      parser.result := Some(L(tokens[1].repr));
    }

    /** `expect_c_command_rec`. */
    method ExpectCCommandRec() returns (r: Outcome)
      requires parser.result.Some? && parser.result.value.C?
      modifies this`index, parser`result
      ensures Step(Now(), r) == CRecStep(Ctx(), old(index), old(parser.result.value))
      decreases |tokens| - index
    {
      var cmd := parser.result.value;
      var curr := index;
      if curr == |tokens| {
        return Pass;
      } else if curr > |tokens| {
        return OutOfBounds;
      } else if curr + 1 < |tokens| && tokens[curr + 1].tokenType == Equal {
        parser.result := Some(cmd.(dest := Some(tokens[curr].repr)));
        r := ExpectTable(DEST, "DEST", [Symbol]);
        if r.Fail? {
          return;
        }
        r := ExpectKind(Equal);
        if r.Fail? {
          return;
        }
        r := ExpectCCommandRec();
      } else if tokens[curr].tokenType == Semicolon {
        if curr + 1 >= |tokens| {
          return OutOfBounds;
        }
        parser.result := Some(cmd.(jump := Some(tokens[curr + 1].repr)));
        r := ExpectKind(Semicolon);
        if r.Fail? {
          return;
        }
        r := ExpectTable(JUMP, "JUMP", [Symbol]);
      } else {
        parser.result := Some(cmd.(comp := Some(tokens[curr].repr)));
        r := ExpectTable(COMP, "COMP", [Expression, Symbol, Number]);
        if r.Fail? {
          return;
        }
        r := ExpectCCommandRec();
      }
    }

    /** `expect_c_command`. */
    method ExpectCCommand() returns (r: Outcome)
      modifies this`index, parser`result
      ensures Step(Now(), r) == CStep(Ctx(), old(Now()))
    {
      parser.result := Some(EmptyC);
      r := ExpectCCommandRec();
    }

    /** `expect_a_command`. */
    method ExpectACommand() returns (r: Outcome)
      modifies this`index, parser`result
      ensures Step(Now(), r) == AStep(Ctx(), old(Now()))
    {
      Advance();
      if |tokens| < 2 {
        return OutOfBounds;
      }
      match tokens[1].tokenType
      case Number => r := ExpectNumber();
      case Symbol => r := ExpectSymbolVa();
      case _ => r := Fail(Report(Ctx(), "Illegal A command"));
    }

    /** `parse_command`. */
    method ParseCommand() returns (r: Outcome)
      modifies this`index, parser`result
      ensures Step(Now(), r) == ParseStep(Ctx(), old(Now()))
    {
      if |tokens| == 0 {
        return OutOfBounds;
      }
      match tokens[0].tokenType
      case At => r := ExpectACommand();
      case LeftBrace => r := ExpectLCommand();
      case _ => r := ExpectCCommand();
    }
  }

  /** Every part a C command holds names an entry of its table. */
  predicate ValidC(cmd: Command)
    requires cmd.C?
  {
    && (cmd.dest.Some? ==> cmd.dest.value in DEST)
    && (cmd.comp.Some? ==> cmd.comp.value in COMP)
    && (cmd.jump.Some? ==> cmd.jump.value in JUMP)
  }

  /** An A line (`@` first) parses iff its second token is a NUMBER or a
      SYMBOL; the value is that token's text and the cursor ends on 2.
      A bare `@` is the only A line that panics. */
  lemma AParse(ln: Line, res: Option<Command>)
    requires |ln.tokens| >= 1 && ln.tokens[0].tokenType == At
    ensures var r := ParseStep(ln, State(0, res));
      && (r.outcome.Pass? <==> |ln.tokens| >= 2 && ln.tokens[1].tokenType in {Number, Symbol})
      && (r.outcome.Pass? ==> r.state == State(2, Some(A(ln.tokens[1].repr))))
      && (r.outcome.Fail? ==> r.state.result == res && Reported(ln, r.outcome.error))
      && (r.outcome == OutOfBounds <==> |ln.tokens| == 1)
  {
  }

  /** An L line (`(` first) parses iff it reads LEFTBRACE, a SYMBOL that
      is not a predefined name, RIGHTBRACE; the label is that symbol and
      the cursor ends on 3. Anything after the RIGHTBRACE is ignored. */
  lemma LParse(ln: Line, res: Option<Command>)
    requires |ln.tokens| >= 1 && ln.tokens[0].tokenType == LeftBrace
    ensures var r := ParseStep(ln, State(0, res));
      && (r.outcome.Pass? <==>
            && |ln.tokens| >= 3 && ln.tokens[1].tokenType == Symbol
            && ln.tokens[1].repr !in PREDEFINED && ln.tokens[2].tokenType == RightBrace)
      && (r.outcome.Pass? ==> r.state == State(3, Some(L(ln.tokens[1].repr))))
      && (r.outcome.Fail? ==> r.state.result == res && Reported(ln, r.outcome.error))
  {
  }

  /** A predefined name cannot be a label. */
  lemma ReservedLabelRejected(ln: Line, res: Option<Command>)
    requires |ln.tokens| >= 2 && ln.tokens[0].tokenType == LeftBrace
    requires ln.tokens[1].tokenType == Symbol && ln.tokens[1].repr in PREDEFINED
    ensures ParseStep(ln, State(0, res)) == Step(State(1, res), Fail(Report(ln, ReservedLabel)))
  {
  }

  /** The recursion only ever writes checked parts: the result is always
      a C command, on success all its parts are in their tables, and
      every error names the line. */
  lemma {:induction false} CRecValid(ln: Line, i: nat, cmd: Command)
    requires cmd.C? && ValidC(cmd) && i <= |ln.tokens|
    ensures var r := CRecStep(ln, i, cmd);
      && r.state.result.Some? && r.state.result.value.C?
      && (r.outcome.Pass? ==> ValidC(r.state.result.value))
      && (r.outcome.Fail? ==> Reported(ln, r.outcome.error))
    decreases |ln.tokens| - i
  {
    var toks := ln.tokens;
    if i == |toks| {
    } else if i + 1 < |toks| && toks[i + 1].tokenType == Equal {
      var c1 := cmd.(dest := Some(toks[i].repr));
      var p1 := TableStep(ln, State(i, Some(c1)), DEST, "DEST", [Symbol]);
      if p1.outcome.Pass? {
        var p2 := KindStep(ln, p1.state, Equal);
        if p2.outcome.Pass? {
          assert CRecStep(ln, i, cmd) == CRecStep(ln, p2.state.index, c1);
          CRecValid(ln, p2.state.index, c1);
        }
      }
    } else if toks[i].tokenType == Semicolon {
    } else {
      var c1 := cmd.(comp := Some(toks[i].repr));
      var p1 := TableStep(ln, State(i, Some(c1)), COMP, "COMP", [Expression, Symbol, Number]);
      if p1.outcome.Pass? {
        assert CRecStep(ln, i, cmd) == CRecStep(ln, p1.state.index, c1);
        CRecValid(ln, p1.state.index, c1);
      }
    }
  }

  /** A C command ends at the end of the line or right after its jump:
      whatever follows the jump is never looked at. */
  ghost predicate EndsC(ln: Line, r: Step) {
    r.outcome.Pass? ==>
      || r.state.index == |ln.tokens|
      || (2 <= r.state.index <= |ln.tokens| && ln.tokens[r.state.index - 2].tokenType == Semicolon
          && r.state.result.Some? && r.state.result.value.C?
          && r.state.result.value.jump == Some(ln.tokens[r.state.index - 1].repr))
  }

  lemma {:induction false} CRecEnd(ln: Line, i: nat, cmd: Command)
    requires cmd.C? && i <= |ln.tokens|
    ensures EndsC(ln, CRecStep(ln, i, cmd))
    decreases |ln.tokens| - i
  {
    var toks := ln.tokens;
    if i == |toks| {
    } else if i + 1 < |toks| && toks[i + 1].tokenType == Equal {
      var c1 := cmd.(dest := Some(toks[i].repr));
      var p1 := TableStep(ln, State(i, Some(c1)), DEST, "DEST", [Symbol]);
      if p1.outcome.Pass? {
        var p2 := KindStep(ln, p1.state, Equal);
        if p2.outcome.Pass? {
          assert CRecStep(ln, i, cmd) == CRecStep(ln, p2.state.index, c1);
          CRecEnd(ln, p2.state.index, c1);
        }
      }
    } else if toks[i].tokenType == Semicolon {
      JumpEnd(ln, i, cmd);
    } else {
      var c1 := cmd.(comp := Some(toks[i].repr));
      var p1 := TableStep(ln, State(i, Some(c1)), COMP, "COMP", [Expression, Symbol, Number]);
      if p1.outcome.Pass? {
        assert CRecStep(ln, i, cmd) == CRecStep(ln, p1.state.index, c1);
        CRecEnd(ln, p1.state.index, c1);
      }
    }
  }

  /** A SEMICOLON ends the command two tokens on, holding the jump. */
  lemma JumpEnd(ln: Line, i: nat, cmd: Command)
    requires cmd.C? && i < |ln.tokens| && ln.tokens[i].tokenType == Semicolon
    requires !(i + 1 < |ln.tokens| && ln.tokens[i + 1].tokenType == Equal)
    ensures EndsC(ln, CRecStep(ln, i, cmd))
  {
    var toks := ln.tokens;
    if i + 1 < |toks| {
      var c1 := cmd.(jump := Some(toks[i + 1].repr));
      var p1 := KindStep(ln, State(i, Some(c1)), Semicolon);
      assert p1.state == State(i + 1, Some(c1));
      var p2 := TableStep(ln, p1.state, JUMP, "JUMP", [Symbol]);
      assert CRecStep(ln, i, cmd) == p2;
      if p2.outcome.Pass? {
        assert p2.state == State(i + 2, Some(c1));
      }
    }
  }

  /** A C line can only panic by ending in a SEMICOLON: the jump after it
      is read before anything checks that it exists. */
  lemma {:induction false} CRecPanic(ln: Line, i: nat, cmd: Command)
    requires cmd.C? && i <= |ln.tokens|
    ensures var r := CRecStep(ln, i, cmd);
      r.outcome.Fail? && r.outcome.error.Panic? ==>
        |ln.tokens| >= 1 && ln.tokens[|ln.tokens| - 1].tokenType == Semicolon
    decreases |ln.tokens| - i
  {
    var toks := ln.tokens;
    if i == |toks| {
    } else if i + 1 < |toks| && toks[i + 1].tokenType == Equal {
      var c1 := cmd.(dest := Some(toks[i].repr));
      var p1 := TableStep(ln, State(i, Some(c1)), DEST, "DEST", [Symbol]);
      if p1.outcome.Pass? {
        var p2 := KindStep(ln, p1.state, Equal);
        if p2.outcome.Pass? {
          assert CRecStep(ln, i, cmd) == CRecStep(ln, p2.state.index, c1);
          CRecPanic(ln, p2.state.index, c1);
        }
      }
    } else if toks[i].tokenType == Semicolon {
    } else {
      var c1 := cmd.(comp := Some(toks[i].repr));
      var p1 := TableStep(ln, State(i, Some(c1)), COMP, "COMP", [Expression, Symbol, Number]);
      if p1.outcome.Pass? {
        assert CRecStep(ln, i, cmd) == CRecStep(ln, p1.state.index, c1);
        CRecPanic(ln, p1.state.index, c1);
      }
    }
  }

  /** What a whole C line gives: a C command whose parts are all in their
      tables, or an error naming the line; a panic needs a trailing
      SEMICOLON; a command ends at the end of the line or after its jump. */
  lemma CParse(ln: Line, res: Option<Command>)
    requires |ln.tokens| >= 1 && ln.tokens[0].tokenType !in {At, LeftBrace}
    ensures var r := ParseStep(ln, State(0, res));
      && r.state.result.Some? && r.state.result.value.C?
      && (r.outcome.Pass? ==> ValidC(r.state.result.value))
      && (r.outcome.Fail? ==> Reported(ln, r.outcome.error))
      && (r.outcome.Fail? && r.outcome.error.Panic? ==> ln.tokens[|ln.tokens| - 1].tokenType == Semicolon)
      && (r.outcome.Pass? ==>
            || r.state.index == |ln.tokens|
            || (2 <= r.state.index <= |ln.tokens| && ln.tokens[r.state.index - 2].tokenType == Semicolon))
  {
    CRecValid(ln, 0, EmptyC);
    CRecEnd(ln, 0, EmptyC);
    CRecPanic(ln, 0, EmptyC);
  }

  /** `d=c;j`: the token before EQUAL is the dest, the one after it the
      comp and the one after SEMICOLON the jump. The line parses iff the
      dest is a SYMBOL in DEST, the comp is in COMP and the jump is a
      SYMBOL in JUMP, and then the cursor is at the end. */
  lemma CParseFull(ln: Line, res: Option<Command>, d: Token, c: Token, j: Token)
    requires ln.tokens == [d, Lexing.EqualToken, c, Lexing.SemicolonToken, j]
    requires Lexing.IsWordKind(d.tokenType) && Lexing.IsWordKind(c.tokenType) && Lexing.IsWordKind(j.tokenType)
    ensures var r := ParseStep(ln, State(0, res));
      && (r.outcome.Pass? <==>
            && d.tokenType == Symbol && d.repr in DEST && c.repr in COMP
            && j.tokenType == Symbol && j.repr in JUMP)
      && (r.outcome.Pass? ==> r.state == State(5, Some(C(Some(d.repr), Some(c.repr), Some(j.repr)))))
  {
    var c1 := C(Some(d.repr), None, None);
    var c2 := c1.(comp := Some(c.repr));
    assert ParseStep(ln, State(0, res)) == CRecStep(ln, 0, EmptyC);
    if d.tokenType == Symbol && d.repr in DEST {
      assert CRecStep(ln, 0, EmptyC) == CRecStep(ln, 2, c1);
      if c.repr in COMP {
        assert CRecStep(ln, 2, c1) == CRecStep(ln, 3, c2);
      }
    }
  }

  /** `d=c`: dest and comp, no jump. */
  lemma CParseDestComp(ln: Line, res: Option<Command>, d: Token, c: Token)
    requires ln.tokens == [d, Lexing.EqualToken, c]
    requires Lexing.IsWordKind(d.tokenType) && Lexing.IsWordKind(c.tokenType)
    ensures var r := ParseStep(ln, State(0, res));
      && (r.outcome.Pass? <==> d.tokenType == Symbol && d.repr in DEST && c.repr in COMP)
      && (r.outcome.Pass? ==> r.state == State(3, Some(C(Some(d.repr), Some(c.repr), None))))
  {
    var c1 := C(Some(d.repr), None, None);
    var c2 := c1.(comp := Some(c.repr));
    assert ParseStep(ln, State(0, res)) == CRecStep(ln, 0, EmptyC);
    if d.tokenType == Symbol && d.repr in DEST {
      assert CRecStep(ln, 0, EmptyC) == CRecStep(ln, 2, c1);
      if c.repr in COMP {
        assert CRecStep(ln, 2, c1) == CRecStep(ln, 3, c2);
      }
    }
  }

  /** `c;j`: comp and jump, no dest. */
  lemma CParseCompJump(ln: Line, res: Option<Command>, c: Token, j: Token)
    requires ln.tokens == [c, Lexing.SemicolonToken, j]
    requires Lexing.IsWordKind(c.tokenType) && Lexing.IsWordKind(j.tokenType)
    ensures var r := ParseStep(ln, State(0, res));
      && (r.outcome.Pass? <==> c.repr in COMP && j.tokenType == Symbol && j.repr in JUMP)
      && (r.outcome.Pass? ==> r.state == State(3, Some(C(None, Some(c.repr), Some(j.repr)))))
  {
    var c1 := C(None, Some(c.repr), None);
    assert ParseStep(ln, State(0, res)) == CRecStep(ln, 0, EmptyC);
    if c.repr in COMP {
      assert CRecStep(ln, 0, EmptyC) == CRecStep(ln, 1, c1);
    }
  }

  /** `c`: a comp alone. */
  lemma CParseComp(ln: Line, res: Option<Command>, c: Token)
    requires ln.tokens == [c] && Lexing.IsWordKind(c.tokenType)
    ensures var r := ParseStep(ln, State(0, res));
      && (r.outcome.Pass? <==> c.repr in COMP)
      && (r.outcome.Pass? ==> r.state == State(1, Some(C(None, Some(c.repr), None))))
  {
    var c1 := C(None, Some(c.repr), None);
    assert ParseStep(ln, State(0, res)) == CRecStep(ln, 0, EmptyC);
    if c.repr in COMP {
      assert CRecStep(ln, 0, EmptyC) == CRecStep(ln, 1, c1);
    }
  }

  /** A successful parse always fills the result slot, with the kind
      the first token names; a C result holds only table entries. So the
      unwraps that read the result after a successful parse never fail. */
  lemma ParsePass(ln: Line, res: Option<Command>)
    ensures var r := ParseStep(ln, State(0, res));
      r.outcome.Pass? ==>
        && |ln.tokens| >= 1 && r.state.result.Some?
        && (r.state.result.value.A? <==> ln.tokens[0].tokenType == At)
        && (r.state.result.value.L? <==> ln.tokens[0].tokenType == LeftBrace)
        && (r.state.result.value.C? ==> ValidC(r.state.result.value))
  {
    if |ln.tokens| >= 1 {
      match ln.tokens[0].tokenType
      case At => AParse(ln, res);
      case LeftBrace => LParse(ln, res);
      case _ => CParse(ln, res);
    }
  }

  /** An empty token list panics at `tokens[0]`. */
  lemma EmptyParse(ln: Line, s: State)
    requires ln.tokens == []
    ensures ParseStep(ln, s) == Step(s, OutOfBounds)
  {
  }

  /** `MD=M-1;JMP`: dest, comp and jump, cursor at the end. */
  lemma FullCExample(ln: Line, res: Option<Command>)
    requires ln.tokens == [Token("MD", Symbol), Lexing.EqualToken, Token("M-1", Expression), Lexing.SemicolonToken, Token("JMP", Symbol)]
    ensures ParseStep(ln, State(0, res)) == Step(State(5, Some(C(Some("MD"), Some("M-1"), Some("JMP")))), Pass)
  {
    var c1 := C(Some("MD"), None, None);
    var c2 := c1.(comp := Some("M-1"));
    var c3 := c2.(jump := Some("JMP"));
    assert "JMP" in JUMP && "M-1" in COMP && "MD" in DEST;
    assert CRecStep(ln, 3, c2) == Step(State(5, Some(c3)), Pass);
    assert CRecStep(ln, 2, c1) == CRecStep(ln, 3, c2);
    assert CRecStep(ln, 0, EmptyC) == CRecStep(ln, 2, c1);
  }

  /** `X=D`: a dest that is not in the table. */
  lemma UnknownDestExample(ln: Line, res: Option<Command>)
    requires ln.tokens == [Token("X", Symbol), Lexing.EqualToken, Token("D", Symbol)]
    ensures ParseStep(ln, State(0, res)) ==
      Step(State(0, Some(C(Some("X"), None, None))), Fail(Report(ln, "X is not defined in table DEST!")))
  {
    assert "X" !in DEST;
    assert "X" + " is not defined in table " + "DEST" + "!" == "X is not defined in table DEST!";
  }

  /** `D;`: the jump is read past the end. */
  lemma TrailingSemicolonExample(ln: Line, res: Option<Command>)
    requires ln.tokens == [Token("D", Symbol), Lexing.SemicolonToken]
    ensures ParseStep(ln, State(0, res)) == Step(State(1, Some(C(None, Some("D"), None))), OutOfBounds)
  {
    var c1 := C(None, Some("D"), None);
    assert "D" in COMP;
    assert CRecStep(ln, 0, EmptyC) == CRecStep(ln, 1, c1);
  }
}
