# A model of the Hack assembler of tenheadedlion/nand2tetris

The Rust assembler of project 06 turns Hack assembly into 16-bit machine
words written as text lines of `0` and `1`. It works in two passes over the
trimmed lines of a file:

- **First pass.** Each label line `(NAME)` binds NAME to the number of
  instruction lines before it.
- **Second pass.** Each `@value` line becomes `0` followed by a 15-bit
  address. The value is a number, a predefined name, a bound label, or a
  new variable allocated from address 16 upward.
- **C lines.** Each `dest=comp;jump` line becomes `111` followed by the
  comp, dest and jump codes.

Every line is lexed into tokens (`Lexer`) and parsed by recursive descent
(`Parser`, `ParserArg`). The result is turned into a word (`Coder`). One
line processor (`HPU`) does all three for each pass, and the `Assembler`
drives the two passes.

The Dafny project has one module per source file:

| module | file | form |
|---|---|---|
| `Errors` | error.rs | The error record, plus `Option`, `Outcome` and `Result` wrappers. Panics are an explicit `Panic(reason)` error. |
| `Base` | base.rs | The DEST, JUMP, COMP and predefined-symbol tables, and lemmas on their shape. |
| `StrUtil` | strutil.rs and the `str` helpers it uses | Pure functions and lemmas: `find`, `split`, `split_whitespace`, `trim`. |
| `Lexing` | lexer.rs | Class `Lexer`. Its `tokens` and `cmdType` fields are reassigned by `Set`, `AddTokens` and friends. |
| `Parsing` | parser.rs | Class `Parser` holds the symbol table, `varmem` and the result slot. Class `ParserArg` holds the token cursor and has one method per `expect_*` function. |
| `Coding` | coder.rs | Pure functions: the `i32` parse, the binary formatting, A resolution and C encoding. `TranslateA` updates the parser in place. |
| `Passes` | hpu.rs | Class `Hpu` with `FirstPass` and `SecondPass`. |
| `Driver` | assembler.rs | Class `Assembler` with `Run`, `FirstPasses` and `SecondPasses`. Lines are held in memory. |

Each imperative method is proved equal to a pure function of the state before
the call (`Machine` in `Passes`, `State` and `Step` in `Parsing`, the folds
`FirstPassAll`, `SecondPassAll` and `Assemble` in `Driver`). The properties
are then proved about those functions: labels name the address of the
instruction after them, the second pass writes one word per instruction,
the A and C word layouts, and the exact error and panic cases.

Where the documentation and the code disagree, the model follows the code:

- `Parser::new` starts with an empty symbol table. Predefined names are
  looked up in their own table and are never inserted.
- `translate_c` writes a three-character filler for a missing comp, so a
  C line without a comp gives a 12-bit word. The passes use it as written.
  The evidently intended encoder, which rejects such a command, is
  modelled beside it and reported under Findings.

## Model

| member | source | states |
|---|---|---|
| Base.DestJumpShape | projects/06/assembler/src/model/base.rs:5-26 | DEST and JUMP each have seven entries. Their codes are distinct 3-bit strings, and none is `000`, the code written for an absent part. |
| Base.CompShape | projects/06/assembler/src/model/base.rs:54-85 | COMP has 28 entries with distinct 7-bit codes. |
| Base.CompMemoryBit | projects/06/assembler/src/model/base.rs:54-85 | A comp code starts with `1` exactly when its mnemonic reads M. Each M mnemonic has an A twin whose code differs only in that first bit. |
| Base.PredefinedShape | projects/06/assembler/src/model/base.rs:27-53 | There are 23 predefined symbols. SP is 0, SCREEN 16384 and KBD 24576, and every address is below 2^15. |
| Base.PredefinedBelow | projects/06/assembler/src/model/base.rs:27-53 | Every predefined address fits the 15 address bits of an A word. |
| Base.ListedInjective | projects/06/assembler/src/model/base.rs:5-85 | A table listed with distinct codes maps different keys to different codes, and has one entry per listed key. |
| StrUtil.FindFirst | projects/06/assembler/src/model/strutil.rs:4 | `find` returns None exactly when the character is absent. Otherwise it returns an index holding it with none before. |
| StrUtil.FallWithinMeaning | projects/06/assembler/src/model/strutil.rs:3-13 | `fall_within(ms, c)` holds exactly when `ms` does not start with `c` and `c` occurs strictly inside `ms`. |
| StrUtil.FallWithinExamples | projects/06/assembler/src/model/strutil.rs:27-32 | The unit test: `=` and `;` fall within `MD=A-1;JMP` but not within `=A-1JMP;`. |
| StrUtil.EmptyLine | projects/06/assembler/src/model/strutil.rs:14-17 | `empty_line` holds exactly when every character is whitespace. |
| StrUtil.SplitWhitespacePieces | projects/06/assembler/src/model/strutil.rs:15 | `split_whitespace` yields non-empty, whitespace-free pieces whose concatenation is the visible characters of the input. |
| StrUtil.SplitWhitespaceAt | projects/06/assembler/src/model/strutil.rs:15 | A whitespace character splits the input there: the pieces of `x + [c] + y` are those of `x` followed by those of `y`, so no piece runs across whitespace. |
| StrUtil.SplitWhitespacePadded | projects/06/assembler/src/model/strutil.rs:15 | Whitespace around one word splits away to leave that word. |
| StrUtil.Trim | projects/06/assembler/src/model/lexer.rs:27 | `trim` leaves a string that is empty or has a visible first and last character. |
| StrUtil.TrimSplit | projects/06/assembler/src/model/lexer.rs:27 | The input is the trimmed string with only whitespace cut from each end. |
| StrUtil.TrimVisible | projects/06/assembler/src/model/lexer.rs:27 | Trimming keeps every visible character, in order. |
| StrUtil.TrimKeeps | projects/06/assembler/src/model/lexer.rs:27 | A string with visible ends is its own trim. |
| StrUtil.TrimIdempotent | projects/06/assembler/src/model/assembler.rs:27-29 | Trimming twice is trimming once, so a line the driver already trimmed is lexed as it stands. |
| StrUtil.EmptyLineTrim | projects/06/assembler/src/model/strutil.rs:14-17 | A line is blank exactly when its trim is blank, and exactly when its trim is empty. |
| StrUtil.SplitRoundTrip | projects/06/assembler/src/model/lexer.rs:51 | `split(c)` yields at least one piece, none holding `c`, and joining them with `c` gives back the input. |
| StrUtil.SplitJoin | projects/06/assembler/src/model/lexer.rs:51 | Splitting pieces free of `c` after joining them with `c` gives back the pieces. |
| StrUtil.SplitFirst | projects/06/assembler/src/model/lexer.rs:51-52 | When `c` occurs, the first piece is everything before its first occurrence. |
| Lexing.Classify | projects/06/assembler/src/model/lexer.rs:105-126 | The token keeps the text. NUMBER exactly for a digit string, SYMBOL exactly for an identifier, EXPRESSION otherwise. |
| Lexing.ClassifyAllPointwise | projects/06/assembler/src/model/lexer.rs:89-95 | One token per piece, each the classification of its piece. |
| Lexing.TokensAreWordTokens | projects/06/assembler/src/model/lexer.rs:87-98 | `add_tokens` makes one token per whitespace-separated piece, holding that piece, never a punctuation kind. |
| Lexing.Lexer.constructor | projects/06/assembler/src/model/lexer.rs:15-20 | A new lexer has no tokens and no command type. |
| Lexing.Lexer.AddTokens | projects/06/assembler/src/model/lexer.rs:87-98 | Appends exactly `Tokens(s)` to the token list, never fails, and leaves the command type alone. |
| Lexing.Lexer.Set | projects/06/assembler/src/model/lexer.rs:21-85 | Leaves exactly `LexTokens(expr)` and `LexType(expr)`. Fails with "Empty line" exactly when the line is blank. |
| Lexing.Lexer.AddCompute | projects/06/assembler/src/model/lexer.rs:47-84 | The compute branch appends exactly `ComputeTokens(e)`. |
| Lexing.Lexer.AddJumpTail | projects/06/assembler/src/model/lexer.rs:66-83 | The `;` branch appends exactly `JumpTail(e)`. |
| Lexing.LexBlank | projects/06/assembler/src/model/lexer.rs:22-26 | A blank line leaves no tokens and no command type. |
| Lexing.LexOfLine | projects/06/assembler/src/model/lexer.rs:27-84 | A line that is not blank is lexed by the shape of its trimmed form. |
| Lexing.LexFirstToken | projects/06/assembler/src/model/lexer.rs:28-48 | A line that is not blank gives at least one token. The first is AT exactly for an A line and LEFTBRACE exactly for an L line. |
| Lexing.JumpTailSemicolon | projects/06/assembler/src/model/lexer.rs:66-83 | A SEMICOLON token appears exactly when `;` falls within the text after `=`. No EQUAL token comes from it. |
| Lexing.ComputeEqual | projects/06/assembler/src/model/lexer.rs:50-65 | An EQUAL token appears exactly when `=` falls within the line. |
| Lexing.ComputeDropsAfterSecondEqual | projects/06/assembler/src/model/lexer.rs:51-60 | Only the text between the first and second `=` carries on. Anything after a second `=` is dropped. |
| Lexing.LexAWord | projects/06/assembler/src/model/lexer.rs:28-34 | `@` followed by one word lexes to AT and that word, as an A command. |
| Lexing.LexLabel | projects/06/assembler/src/model/lexer.rs:35-46 | `(`, a word with any whitespace around it, `)` lexes to LEFTBRACE, the word, RIGHTBRACE, as an L command. |
| Lexing.LexBracketed | projects/06/assembler/src/model/lexer.rs:35-46 | A parenthesised line lexes to LEFTBRACE, the tokens inside, RIGHTBRACE. |
| Lexing.LexCompute | projects/06/assembler/src/model/lexer.rs:47-84 | `d=c;j` of three words lexes to the five tokens d, EQUAL, c, SEMICOLON, j, as a C command. |
| Lexing.LexExamples | projects/06/assembler/src/model/lexer.rs:133-166 | The unit test: `@R2` gives AT, SYMBOL R2, and `@234` gives AT, NUMBER 234. |
| Lexing.DestJumpKeysAreSymbols | projects/06/assembler/src/model/base.rs:5-26 | Every DEST and JUMP mnemonic lexes as a SYMBOL, as the parser's dest and jump expectations require. |
| Parsing.KindStep | projects/06/assembler/src/model/parser.rs:91-105 | `create_expect!` succeeds exactly on a token of the kind, moving by one. Otherwise it reports the line, or panics past the end. |
| Parsing.TableStep | projects/06/assembler/src/model/parser.rs:108-158 | `create_expect_predefined!` succeeds exactly on a token of an accepted kind whose text is a key of the table, moving by one. |
| Parsing.NumberStep | projects/06/assembler/src/model/parser.rs:281-301 | Succeeds exactly on a NUMBER and records it as the A value. |
| Parsing.SymbolVaStep | projects/06/assembler/src/model/parser.rs:303-322 | Succeeds exactly on a SYMBOL and records it as the A value. |
| Parsing.SymbolVlStep | projects/06/assembler/src/model/parser.rs:324-340 | Succeeds exactly on a SYMBOL that is not predefined, and leaves the result alone. |
| Parsing.Parser.constructor | projects/06/assembler/src/model/parser.rs:163-174 | Empty symbol table, `varmem` 16, no result. |
| Parsing.ParserArg.constructor | projects/06/assembler/src/model/hpu.rs:82-88 | The cursor starts at token 0 over the given tokens, line text and number. |
| Parsing.ParserArg.Advance | projects/06/assembler/src/model/parser.rs:74-77 | Moves the cursor by one. |
| Parsing.ParserArg.ExpectKind | projects/06/assembler/src/model/parser.rs:192-195 | Does exactly `KindStep`. |
| Parsing.ParserArg.ExpectTable | projects/06/assembler/src/model/parser.rs:196-204 | Does exactly `TableStep`. |
| Parsing.ParserArg.ExpectNumber | projects/06/assembler/src/model/parser.rs:281-301 | Does exactly `NumberStep`. |
| Parsing.ParserArg.ExpectSymbolVa | projects/06/assembler/src/model/parser.rs:303-322 | Does exactly `SymbolVaStep`. |
| Parsing.ParserArg.ExpectSymbolVl | projects/06/assembler/src/model/parser.rs:324-340 | Does exactly `SymbolVlStep`. |
| Parsing.ParserArg.ExpectLCommand | projects/06/assembler/src/model/parser.rs:206-226 | Does exactly `LStep`. |
| Parsing.ParserArg.ExpectCCommandRec | projects/06/assembler/src/model/parser.rs:243-266 | Does exactly `CRecStep` from the current cursor and command. |
| Parsing.ParserArg.ExpectCCommand | projects/06/assembler/src/model/parser.rs:228-241 | Does exactly `CStep`. |
| Parsing.ParserArg.ExpectACommand | projects/06/assembler/src/model/parser.rs:268-279 | Does exactly `AStep`. |
| Parsing.ParserArg.ParseCommand | projects/06/assembler/src/model/parser.rs:176-190 | Does exactly `ParseStep`. |
| Parsing.AParse | projects/06/assembler/src/model/parser.rs:268-322 | An A line parses exactly when its second token is a NUMBER or SYMBOL. The value is that token's text and the cursor ends on 2. A bare `@` is the only panic. |
| Parsing.LParse | projects/06/assembler/src/model/parser.rs:206-226 | An L line parses exactly when it reads LEFTBRACE, a non-predefined SYMBOL, RIGHTBRACE. The label is the symbol and the cursor ends on 3. Failures keep the old result. |
| Parsing.ReservedLabelRejected | projects/06/assembler/src/model/parser.rs:332-334 | A predefined name as a label fails with the reserved-keyword message. |
| Parsing.CRecValid | projects/06/assembler/src/model/parser.rs:243-266 | The recursion always leaves a C result. On success every part is a key of its table. Every error names the line. |
| Parsing.CRecEnd | projects/06/assembler/src/model/parser.rs:251-261 | A C command ends at the end of the tokens, or right after the jump following a SEMICOLON. |
| Parsing.JumpEnd | projects/06/assembler/src/model/parser.rs:259-261 | A SEMICOLON ends the command two tokens on, holding the jump. |
| Parsing.CRecPanic | projects/06/assembler/src/model/parser.rs:259-260 | A C line can panic only when its last token is a SEMICOLON, because the jump is read before its presence is checked. |
| Parsing.CParse | projects/06/assembler/src/model/parser.rs:228-266 | The parse of a whole C line, combining CRecValid, CRecEnd and CRecPanic from the start. |
| Parsing.CParseFull | projects/06/assembler/src/model/parser.rs:243-266 | Tokens d, EQUAL, c, SEMICOLON, j parse exactly when d is a SYMBOL in DEST, c is in COMP and j is a SYMBOL in JUMP, giving dest d, comp c and jump j with the cursor at the end. |
| Parsing.CParseDestComp | projects/06/assembler/src/model/parser.rs:243-266 | Tokens d, EQUAL, c parse exactly when d is a SYMBOL in DEST and c is in COMP, giving dest d, comp c and no jump with the cursor at the end. |
| Parsing.CParseCompJump | projects/06/assembler/src/model/parser.rs:243-266 | Tokens c, SEMICOLON, j parse exactly when c is in COMP and j is a SYMBOL in JUMP, giving comp c, jump j and no dest with the cursor at the end. |
| Parsing.CParseComp | projects/06/assembler/src/model/parser.rs:243-266 | A single token c parses exactly when c is in COMP, giving comp c alone with the cursor at the end. |
| Parsing.ParsePass | projects/06/assembler/src/model/parser.rs:176-190 | After a successful parse the result is filled, of the kind the first token names, and a C result holds only table keys. So the passes' later unwraps cannot fail. |
| Parsing.EmptyParse | projects/06/assembler/src/model/parser.rs:180-181 | An empty token list panics at `tokens[0]`. |
| Parsing.FullCExample | projects/06/assembler/src/model/hpu.rs:208-223 | `MD=M-1;JMP` parses to dest MD, comp M-1 and jump JMP, with the cursor on 5. |
| Parsing.UnknownDestExample | projects/06/assembler/src/model/parser.rs:122-129 | `X=D` fails with "X is not defined in table DEST!". |
| Parsing.TrailingSemicolonExample | projects/06/assembler/src/model/parser.rs:259-260 | `D;` panics reading the missing jump. |
| Coding.ParseI32 | projects/06/assembler/src/model/coder.rs:13 | A value parses only into the `i32` range. |
| Coding.DecimalRoundTrip | projects/06/assembler/src/model/coder.rs:13 | A decimal numeral in range parses back to its number. |
| Coding.NumeralParse | projects/06/assembler/src/model/coder.rs:13 | A NUMBER token parses to its value if that fits `i32`, and fails otherwise. |
| Coding.IdentifierNotNumber | projects/06/assembler/src/model/coder.rs:13-15 | A SYMBOL never parses as a number, so symbols always reach the table lookups. |
| Coding.BinaryValue | projects/06/assembler/src/model/coder.rs:14 | `{:b}` prints a bit string whose value is the number. |
| Coding.BinaryWidth | projects/06/assembler/src/model/coder.rs:14 | `{:b}` of `n` has at most `k` digits exactly when `n < 2^k`. |
| Coding.AWordRoundTrip | projects/06/assembler/src/model/coder.rs:14-21 | An address below 2^15 gives a 16-bit word with a leading `0` whose value is the address. |
| Coding.AWordTooWide | projects/06/assembler/src/model/coder.rs:14-21 | An address of 2^15 or more gives a word longer than 16 characters. |
| Coding.ResolveAFrame | projects/06/assembler/src/model/coder.rs:8-28 | Resolution leaves the table and `varmem` alone, or binds the one new value to `varmem` and bumps `varmem` by one. Afterwards the value is a number, predefined, or bound. |
| Coding.ResolveAWord | projects/06/assembler/src/model/coder.rs:14-23 | Every A word is non-empty and starts with `0`. |
| Coding.ResolveAStable | projects/06/assembler/src/model/coder.rs:17-23 | Resolving a value again against the updated table gives the same word and changes nothing. |
| Coding.ResolveNumber | projects/06/assembler/src/model/coder.rs:13-14 | A numeral below 2^15 is its own address. |
| Coding.ResolvePredefined | projects/06/assembler/src/model/coder.rs:15-16 | A predefined name resolves to its fixed address whatever the table holds. |
| Coding.ResolveKnown | projects/06/assembler/src/model/coder.rs:17-18 | A name that is not predefined but already bound resolves to its bound address, and the table and `varmem` stay as they are. |
| Coding.ResolveNewVariable | projects/06/assembler/src/model/coder.rs:19-23 | An unknown name is bound to `varmem`, which is incremented, and its word encodes `varmem`. |
| Coding.TranslateA | projects/06/assembler/src/model/coder.rs:8-28 | Returns the resolution's word and leaves its table and `varmem` in the parser. |
| Coding.MissingCompExample | projects/06/assembler/src/model/coder.rs:30-57 | `D= ;JMP` gives `111000010111`. |
| Coding.TranslateCShape | projects/06/assembler/src/model/coder.rs:30-57 | A C word is bits starting with `111`. With a comp it is 16 bits: the 7 comp bits, then 3 dest and 3 jump bits, each the code of its part or zeros. Without a comp it is 12 bits: `000`, then the dest and jump fields. |
| Coding.TranslateCMemoryBit | projects/06/assembler/src/model/coder.rs:30-35 | The fourth bit is set exactly when the comp reads M. |
| Coding.TranslateCInjective | projects/06/assembler/src/model/coder.rs:30-57 | Two C commands with a comp that give the same word are the same command. |
| Coding.TranslateCCheckedWords | projects/06/assembler/src/model/coder.rs:30-39 | The intended encoder accepts exactly the C commands with a comp, and then gives 16 bits starting with `111` whose fourth bit says whether the comp reads M. |
| Coding.TranslateCCheckedInjective | projects/06/assembler/src/model/coder.rs:30-57 | Any two C commands the intended encoder accepts with the same word are the same command. |
| Coding.TranslateCExample | projects/06/assembler/src/model/coder.rs:91-97 | `MD=M-1;JMP` gives `1111110010011111`. |
| Coding.TranslateAExamples | projects/06/assembler/src/model/coder.rs:65-87 | `R0`, `R15`, and `FOO` bound to 20 give `0000000000000000`, `0000000000001111` and `0000000000010100`. |
| Passes.LabelLineTokens | projects/06/assembler/src/model/hpu.rs:114-116 | A line `command_type` calls L is not blank, and lexes to tokens starting with LEFTBRACE. |
| Passes.FirstPassFrame | projects/06/assembler/src/model/hpu.rs:107-148 | A skipped line changes nothing. An instruction line bumps the count. A good label line binds its non-predefined name to the count. A failing label line keeps the table and names the line. `varmem` never changes. |
| Passes.SecondPassTable | projects/06/assembler/src/model/hpu.rs:73-105 | The count never changes, and a skipped line changes nothing. The table and `varmem` are unchanged except for one new variable named by an A line. |
| Passes.TranslateLineTable | projects/06/assembler/src/model/hpu.rs:81-101 | The same for a line that is not skipped. |
| Passes.AtLine | projects/06/assembler/src/model/hpu.rs:63-65 | A line lexing to AT first is an A line for `command_type`. |
| Passes.ResolveLine | projects/06/assembler/src/model/hpu.rs:94-98 | Resolving an A line's value keeps the table or adds exactly that one variable. |
| Passes.SecondPassErrors | projects/06/assembler/src/model/hpu.rs:78-104 | Every error of the second pass names its line or is a panic, and leaves the table and `varmem` alone. |
| Passes.SecondPassWords | projects/06/assembler/src/model/hpu.rs:89-101 | A label line gives `""`. An A line gives a word starting with `0`. A C line gives bits starting with `111`: 16 of them when the parsed command has a comp, 12 when it has none. |
| Passes.SecondPassEmits | projects/06/assembler/src/model/hpu.rs:73-105 | A successful second pass writes a non-empty word exactly for a line that is neither skipped nor a label, and keeps the count. |
| Passes.TypeAgrees | projects/06/assembler/src/model/hpu.rs:63-71 | On a line that is not blank, the lexer's command type and `command_type` of the trimmed line agree. |
| Passes.CommandDetectionExamples | projects/06/assembler/src/model/hpu.rs:155-167 | The unit test of `empty_line`, `is_comment` and `command_type`. |
| Passes.ParseRegisterLine | projects/06/assembler/src/model/hpu.rs:169-187 | `@R15` parses with the cursor on 2. |
| Passes.ParseLabelLine | projects/06/assembler/src/model/hpu.rs:189-206 | `(    LABEL       )` parses with the cursor on 3. |
| Passes.ParseComputeLine | projects/06/assembler/src/model/hpu.rs:208-226 | `MD=M-1;JMP` parses with the cursor on 5. |
| Passes.Hpu.constructor | projects/06/assembler/src/model/hpu.rs:17-25 | A fresh parser and lexer, an empty table, `varmem` 16 and a count of 0. |
| Passes.Hpu.FirstPass | projects/06/assembler/src/model/hpu.rs:107-148 | Does exactly `FirstPassStep`. |
| Passes.Hpu.LexAndParse | projects/06/assembler/src/model/hpu.rs:81-89 | Lexing then parsing a line that is not blank does exactly `LexParse`. |
| Passes.Hpu.BindLabel | projects/06/assembler/src/model/hpu.rs:115-143 | The L branch of the first pass does exactly `LabelPass`. |
| Passes.Hpu.SecondPass | projects/06/assembler/src/model/hpu.rs:73-105 | Does exactly `SecondPassStep`. |
| Driver.InstructionCount | projects/06/assembler/src/model/hpu.rs:144-146 | At most one instruction per line. |
| Driver.FirstLineSteps | projects/06/assembler/src/model/assembler.rs:34-37 | The first pass on trimmed lines counts exactly the instruction lines, keeps `varmem`, and binds a label line's name to the count, touching the table for no other line. |
| Driver.SecondLineSteps | projects/06/assembler/src/model/assembler.rs:49-58 | The second pass on trimmed lines writes a non-empty word exactly for an instruction line, and keeps the count. |
| Driver.FirstPassStops | projects/06/assembler/src/model/assembler.rs:34-37 | After the first pass fails, later lines change nothing (`?`). |
| Driver.SecondPassStops | projects/06/assembler/src/model/assembler.rs:49-58 | After the second pass fails, later lines change nothing and write nothing. |
| Driver.SecondPassGrows | projects/06/assembler/src/model/assembler.rs:49-58 | The words written so far are a prefix of the words written later. Output is only appended. |
| Driver.FirstPassCounts | projects/06/assembler/src/model/assembler.rs:30-40 | A good first pass over `k` lines has counted their instruction lines and kept `varmem`. |
| Driver.LabelAddress | projects/06/assembler/src/model/assembler.rs:30-40 | After a good first pass, a label (not rebound later) is bound to the number of instruction lines before it, which is the address of the next instruction. |
| Driver.SecondPassCounts | projects/06/assembler/src/model/assembler.rs:42-62 | A good second pass over `k` lines has written one word per instruction line. |
| Driver.AssembleWords | projects/06/assembler/src/model/assembler.rs:22-26 | A good run from a fresh assembler writes exactly one word per instruction line. |
| Driver.AssembleLabel | projects/06/assembler/src/model/assembler.rs:22-62 | After a good run, a label line not rebound later is bound to the number of words written for the lines before it, and those words begin the output: the label names the index of the word that follows it. |
| Driver.Assembler.constructor | projects/06/assembler/src/model/assembler.rs:9-14 | A fresh line processor in its initial state. |
| Driver.Assembler.Run | projects/06/assembler/src/model/assembler.rs:22-26 | Does exactly `Assemble`: the first pass, then the second if the first succeeded. |
| Driver.Assembler.FirstPasses | projects/06/assembler/src/model/assembler.rs:30-40 | Does exactly `FirstPassAll` over all lines. |
| Driver.Assembler.SecondPasses | projects/06/assembler/src/model/assembler.rs:42-62 | Does exactly `SecondPassAll` over all lines, writing only non-empty words. |

## Left out

- File I/O is replaced by lines held in memory. The driver takes them as a
  sequence, and the written file is the sequence `SecondPasses` returns.
  - On a second-pass error the words written before it are kept, as they
    would be in the partly written file.
  - The path, `set_extension`, the `expect` on opening files and the
    `writeln!` error path are not modelled.
- The `println!` tracing in parser.rs, assembler.rs and hpu.rs and the
  `Display` of `ParserArg` are not modelled. They only print.
- error.rs's `Display` is not modelled. Only the error record's fields are.
- `Lexing.IsNumeral`: the NUMBER pattern `^\d+$` is read with ASCII digits.
  The regex crate's `\d` also accepts other Unicode decimal digits.
- `Lexing.IsIdentifier`: `[:alpha:]` is read as ASCII letters.
- `StrUtil.FindFirst` counts characters where Rust counts bytes. The two
  agree on ASCII input.
- `usize` overflow of `valid_line` and `varmem` is not modelled. Both are
  unbounded naturals.
- The `Option` and `Box` wrappers of `ParserArg` and `Parser` are always
  `Some` on the paths the passes take. They become plain fields.
- `ParserResult` with its four options is modelled as `Option<Command>`.
  `clear` is modelled as replacing the command.
- Parsing.NumberStep: `expect_number` sets `ar` without clearing the other
  parts of the result. The model replaces the whole command, which is all
  later code reads.
- `Result` returns that can never fail are modelled as `Pass`. This covers
  `add_tokens`, `classify` and `translate_a`/`translate_c` after a good
  parse.
- `Lexer::is_empty_line` is the same test as `Strutil::empty_line` and is
  modelled by it.
- The `Command` struct of base.rs is never used by the passes and is not
  part of this model.
- The unit tests of coder.rs are stale and would not compile as written:
  - `translate_a` is called with two arguments;
  - `translate_c` is expected to give 14 characters.
  
  `Coding.TranslateAExamples` and `Coding.TranslateCExample` state what the
  code computes for those inputs instead.
- `Coding.AWordTooWide` only states that an address of 2^15 or more makes a
  word wider than 16 bits, as the code does. Such a program is not
  rejected.
- Numerals above the `i32` maximum fail `parse::<i32>` and are treated as
  names, as the code does.
- Driver.LabelAddress requires that the label is not bound again by a
  later line. A label defined twice keeps the later binding, as
  `HashMap::insert` does.
- main.rs and model.rs (argument handling and module wiring) are not part
  of this model.

## Findings

| source | as written | input that shows it | evidently intended | confidence | as-written member | corrected member |
|---|---|---|---|---|---|---|
| projects/06/assembler/src/model/coder.rs:36-38 | An absent comp is written as the three characters `000`, so the word is 12 characters long and no Hack instruction. | `D= ;JMP` lexes to D, EQUAL, SEMICOLON, JMP and parses to dest D and jump JMP with no comp. It is written as `111000010111`. | A C instruction always computes something, so a C command without a comp is rejected with an error, and every word written is a 16-bit instruction. | not executed | Coding.MissingCompExample | Coding.TranslateCCheckedWords |

The passes and the driver keep `translate_c` as written, so they write the
12-bit word for such a line. `Coding.TranslateCChecked` is the intended
encoder: every word it gives is a 16-bit instruction, and
`Coding.TranslateCCheckedInjective` shows that each names exactly one
command.
