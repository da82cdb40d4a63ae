# thor compiler core in Dafny

thor is a compiler from a small C-like language (typed variables, functions,
`if`/`while`, `extern` declarations, `import`, and the `std::println` /
`std::print` builtins) to C. This project models its core pipeline as pure
Dafny functions and proves properties of each stage:

- **Tokens** (`tokens.dfy`): the token kinds, the keyword table and the
  rendering of each kind (`TokenInfo`).
- **Lexer** (`lexer.dfy`, with the character classes in `ascii.dfy`): a
  cursor of offset, line and column over the source text. It covers
  whitespace and comment skipping, numbers, strings with their escapes,
  identifiers and keywords, the operator switch, `nextToken` and
  `tokenize`.
- **Syntax tree** (`ast.dfy`, with the line-layout vocabulary in
  `layout.dfy`): the node datatypes, type lowering, literal types, the
  append-only child lists and the indented `toString` dump.
- **Parser** (`parser.dfy`, `parser_facts.dfy`, `parser_examples.dfy`):
  - the cursor helpers and `parseType`;
  - the six-level binary expression ladder, `unary`, `call` and `primary`;
  - every statement parser;
  - `parse` with its skip-to-`;` error recovery.

  A thrown `ParseError` becomes a `Failed(at)` result. `at` is the cursor
  position at the throw, which is where the recovery starts.
- **Code generator** (`codegen.dfy`): the generator state (output, builtins
  in use, indentation level) is threaded through every emitter in the order
  the C++ writes. Beside the emitters stand reference definitions of the
  text each node lowers to and of the builtins a program uses, and lemmas
  tie the emitters to them.
- **Pipeline** (`pipeline.dfy`): tokenize, parse, generate, in the
  driver's order, with the corrected `parse` and the corrected string
  literal of the two findings below.
- `common.dfy` holds `Option`, blank strings, character counting, `Join`
  and `Terminated`.

`currentChar` answers `'\0'` past the end of the input and also for a NUL
inside it, so a NUL ends strings, line comments and block comments as the
end of the input would. `parseType` accepts `void*` as two tokens (`void`
then `*`).

The source text `src` holds the file's bytes, one `char` below 256 per
byte, as the C++ `std::string` does. `advance` therefore counts one column
per byte, and each byte of a multi-byte UTF-8 character that begins no
token is an `INVALID` token of its own. In the C locale no byte of 128 or
above is a blank, digit or letter. For `é x` (bytes C3 A9 20 78),
`tokenize` drops two `INVALID` tokens and gives `IDENTIFIER x` at line 1,
column 4 (`Lexer.ByteColumnsExample`).

The lexer calls `peekChar()` with no argument when it looks for the second
character of `//`, `/*` and `*/` (src/Lexer.cpp:55, 209 and 214). The default
offset comes from `src/Lexer.h`, which is not part of this model; the header
under `include/` declares a different `peek(int offset = 0)`. The model takes
the default to be 1, the character after the cursor (`Lexer.PeekChar`): with
0, a single `/` would open a comment.

The expression statement calls `peekToken()` with no argument to look for
`=` after an identifier (src/Parser.cpp:386). The default offset comes from
`src/Parser.h`, which is not part of this model; the header under
`include/` declares a different `peek(int offset = 0)`. The model takes
the default to be 1, the token after the identifier, which is what the
assignment test needs.

## Model

| member | source | states |
|---|---|---|
| Tokens.GetKeywordType | src/Token.cpp:73-80 | A word in the table gets a keyword kind whose rendering is that word; any other word gets `IDENTIFIER` |
| Tokens.KeywordsAreKeywordKindNames | src/Token.cpp:5-20 | The table holds exactly the renderings of the fourteen keyword kinds, in both directions |
| Tokens.KeywordKindInTable | src/Token.cpp:5-20 | Every keyword kind's rendering is in the table and maps back to that kind |
| Tokens.KindOfNameInvertsTokenName | src/Token.cpp:22-71 | Reading a rendering back gives the kind it came from, for every kind |
| Tokens.TokenNameInjective | src/Token.cpp:22-71 | No two kinds render alike |
| Tokens.NameIsNeverUnknown | src/Token.cpp:69 | The switch's `UNKNOWN` default is unreachable: every kind has its own case |
| Lexer.Advance | src/Lexer.cpp:24-34 | One step moves the offset by one. A newline starts the next line at column 1; any other character moves one column. At the end nothing changes. Line and column stay consistent with the offset |
| Lexer.SkipWhitespace | src/Lexer.cpp:36-40 | Everything skipped is blank, and the cursor stops on a non-blank or at the end |
| Lexer.SkipLineComment | src/Lexer.cpp:42-47 | Skips exactly up to the next newline (left in place), NUL or end, with none of those inside the skipped part |
| Lexer.SkipBlockComment | src/Lexer.cpp:49-62 | Always moves past the opening. It stops just past the first `*/` that begins at or after the two opening characters, or at the first NUL or the end when none comes first. Positions stay consistent |
| Lexer.ReadNumber | src/Lexer.cpp:64-80 | The token text is the source slice read: digits with at most one `.`, and a leading digit when it starts on one. It stops before a second `.` or a non-digit and carries the start line and column |
| Lexer.ReadString | src/Lexer.cpp:82-111 | A `STRING` token at the start position. Its value is `Unescape` of the body up to the first unescaped quote, NUL or end: every escape, the five named ones and any other, stands for `EscapedChar` of its character. The cursor ends just past that quote, or at the NUL or the end |
| Lexer.ReadStringOfEscape | src/Lexer.cpp:87-108 | Reading an escaped body between quotes gives back the original value and stops just after the closing quote |
| Lexer.ReadStringEndsAt | src/Lexer.cpp:82-111 | Wherever a literal body ends, the token value is what that body stands for, and the cursor is just past a closing quote there or at the NUL or end |
| Lexer.LiteralEndsUnique | src/Lexer.cpp:89-104 | A literal body has only one end, so the stop point of `readString` is unique |
| Lexer.StringLoopDecodes | src/Lexer.cpp:89-104 | The decoding loop stops at the end of the body and appends exactly `Unescape` of it |
| Lexer.UnescapeEscape | src/Lexer.cpp:90-99 | Decoding undoes `Escape` for every value |
| Lexer.EscapeIsLiteralBody | src/Lexer.cpp:89-104 | A value without NUL, once escaped, is read by the loop in one go: no unescaped quote, NUL or stray backslash inside |
| Lexer.UnterminatedStringRunsToEnd | src/Lexer.cpp:89-110 | Without a closing quote or NUL, escapes included, the token value is what the rest of the input stands for and the cursor ends at the end |
| Lexer.ReadIdentifier | src/Lexer.cpp:113-128 | The token text is the maximal run of letters, digits and `_`. It gets the keyword table's kind when listed and `IDENTIFIER` otherwise |
| Lexer.ScanOperatorRendersKind | src/Lexer.cpp:135-194 | Every kind the operator switch produces is an operator or punctuation kind, and its text is that kind's rendering |
| Lexer.ReadOperator | src/Lexer.cpp:130-197 | Takes one or two characters that begin at the cursor. A recognised token's text is its kind's rendering; otherwise `INVALID` holds the single character. A single `&` or vertical bar that is not doubled is `INVALID` |
| Lexer.OperatorSpellingRoundTrip | src/Lexer.cpp:130-197 | Scanning each operator's rendering gives its kind and consumes it whole |
| Lexer.TwoCharOperatorWins | src/Lexer.cpp:152-196 | Wherever a two-character operator is spelled out at the cursor, it is read as that operator over two characters, whatever follows |
| Lexer.OneCharOperatorUnlessLonger | src/Lexer.cpp:135-196 | Where no two-character operator is spelled out at the cursor, a one-character operator there is read alone |
| Lexer.NextToken | src/Lexer.cpp:199-236 | `EOF_TOKEN` (empty text) exactly when its start is the end of the input. Any other token consumes input, begins with the source character at its start, and carries that offset's line and column |
| Lexer.NextTokenSkipsTrivia | src/Lexer.cpp:199-236 | What is skipped before the token is blanks and whole comments, and no blank or comment begins where the token starts |
| Lexer.TriviaContinues | src/Lexer.cpp:199-236 | Trivia is read one way only: two trivia prefixes of different length mean a blank or comment begins where the shorter ends |
| Lexer.CommentEndsUnique | src/Lexer.cpp:42-62 | A comment of either kind has only one end |
| Lexer.Tokenize | src/Lexer.cpp:238-253 | No `INVALID` token survives, an `EOF_TOKEN` can only be last, and empty input gives no tokens |
| Lexer.TokensCarryTheirPositions | src/Lexer.cpp:199-253 | Every token of the list carries the line and column of the offset where it starts |
| Lexer.NoEofAfterFinalToken | src/Lexer.cpp:241-250 | When the last token ends at the end of the input, the list has no `EOF_TOKEN`: the loop ends before asking for one |
| Lexer.EofAfterTrailingTrivia | src/Lexer.cpp:199-250 | When the rest of the input is blanks and comments, `nextToken` reports the end and the rest of the list is that one `EOF_TOKEN` |
| Lexer.NoEofExample | src/Lexer.cpp:238-253 | The input `x` gives the single token `IDENTIFIER x` at 1:1, with no end token |
| Lexer.TrailingEofExample | src/Lexer.cpp:238-253 | The input `x` plus one blank gives `IDENTIFIER x` at 1:1 then `EOF_TOKEN` at 1:3 |
| Lexer.InvalidCharScan | src/Lexer.cpp:199-236 | A character that begins no blank, comment, number, string, identifier or operator becomes a one-character `INVALID` token at its own line and column, and the cursor moves past it alone |
| Lexer.NoTriviaScansToken | src/Lexer.cpp:199-217 | Where neither a blank nor a `/` stands, `nextToken` reads its token at the cursor, without skipping |
| Lexer.OperatorCharScansOperator | src/Lexer.cpp:219-235 | A character that begins no number, string or identifier is read by the operator reader |
| Lexer.InvalidOperatorScan | src/Lexer.cpp:130-197 | When the operator switch recognises nothing, the token is `INVALID`, holds the single character, and the cursor moves past that character alone |
| Lexer.TokenizeDropsInvalid | src/Lexer.cpp:241-250 | An `INVALID` token adds nothing to the list, and the scan goes on after it |
| Lexer.TokenizeKeeps | src/Lexer.cpp:241-250 | Any other token before the end is listed, and the scan goes on after it |
| Lexer.ByteColumnsExample | src/Lexer.cpp:24-34 | The bytes C3 A9 20 78 (`é x`) give only `IDENTIFIER x`, at line 1, column 4: both bytes of `é` are dropped as `INVALID`, and each counts one column |
| Lexer.Escape | src/Lexer.cpp:90-99 | Writes a value so that the escape reader decodes it back (see `ReadStringOfEscape`); empty exactly for the empty value |
| Ast.TypeToStringInjective | src/AST.cpp:6-17 | Reading a type's spelling back gives the type, so no two types share a spelling |
| Ast.TypeToCType | src/AST.cpp:19-30 | `string` lowers to `char*` and `bool` to `int`. `unknown` and `void` lower to `void`, and `int`, `float` and `void*` keep their spelling, each in both directions |
| Ast.CTypeAgreesWithSpelling | src/AST.cpp:6-30 | The C type differs from the language spelling exactly for `string`, `bool` and `unknown` |
| Ast.LiteralType | src/AST.cpp:37-58 | A number literal is `FLOAT` exactly when its text has a `.`; string and bool literals get `STRING` and `BOOL`; other expressions get none |
| Ast.AddStatement | src/AST.cpp:184-186 | Appends: the old statements are kept in order and the new one comes last |
| Ast.AddArgument | src/AST.cpp:97-99 | The call keeps its name and arguments and gains the new one last |
| Ast.AddParameter | src/AST.cpp:168-170 | The parameter list keeps its entries and gains the new parameter last |
| Ast.SetBody | src/AST.cpp:240-242 | Sets the body and leaves return type, name and parameters alone |
| Ast.Indent | src/AST.cpp:32-35 | Two blanks per level |
| Ast.ExprDumpIndented | src/AST.cpp:42-109 | Every line of an expression's dump at a level is indented by at least two blanks per level |
| Ast.ExprDumpLayout | src/AST.cpp:42-109 | An expression's dump is exactly two blanks per level and its header, then the dumps of its operands or arguments one level deeper, in order, each on its own line; a call adds a final line break |
| Ast.ExprHeader | src/AST.cpp:42-109 | The header is non-empty and starts with neither a blank nor a line break |
| Ast.ExprHeaderFlat | src/AST.cpp:42-109 | For an expression whose texts hold no line break, the header is one line |
| Ast.StmtDumpIndented | src/AST.cpp:114-257 | Every line of a statement's dump at a level is indented by at least two blanks per level |
| Ast.StmtDumpLayout | src/AST.cpp:114-257 | A statement's dump is exactly two blanks per level and its header, then its sections (initializer, value, labelled condition and branches, body, block statements) one level deeper, in source order, each on its own line |
| Ast.StmtHeader | src/AST.cpp:114-257 | The header is non-empty and starts with neither a blank nor a line break |
| Ast.StmtHeaderFlat | src/AST.cpp:114-257 | For a statement whose names and texts hold no line break, the header is one line |
| Ast.ProgramDumpIndented | src/AST.cpp:263-271 | When every top-level statement is flat (no line break in its names, operators or literal texts), every line of the program's dump keeps the indentation of its level |
| Ast.ProgramDumpLayout | src/AST.cpp:263-271 | The program's dump is `Program:` at the level's indentation, then each statement's dump one level deeper in order, then a line break |
| Parser.CurrentToken | src/Parser.cpp:8-22 | The token under the cursor, or an `EOF_TOKEN` past the list |
| Parser.PeekToken | src/Parser.cpp:24-31 | The token the given number of places ahead, or an `EOF_TOKEN` past the list |
| Parser.Advance | src/Parser.cpp:33-37 | Moves one place, but never beyond the list |
| Parser.Match | src/Parser.cpp:48-54 | Moves exactly when the current token has the kind asked for |
| Parser.Consume | src/Parser.cpp:56-64 | Succeeds exactly on a token of the kind asked for, returns it and moves one place; otherwise fails where the cursor stands |
| Parser.ParseType | src/Parser.cpp:66-80 | Succeeds exactly on a type keyword. One token gives the type that keyword spells; `void` then `*` gives `void*` over two tokens; `unknown` never comes out |
| Parser.Declaration | src/Parser.cpp:269-311 | Builds a function exactly when `(` follows the type and the name, and a variable otherwise |
| Parser.FunctionRest | src/Parser.cpp:275-298 | The function keeps its type and name and the parameter list parsed. It has a body exactly when `{` follows the `)` |
| Parser.Parameters | src/Parser.cpp:282-288 | Each parameter is appended after those already read, and each takes at least two tokens |
| Parser.ParameterList | src/Parser.cpp:282-290 | Ends just after a `)`; an immediate `)` gives no parameters |
| Parser.VariableRest | src/Parser.cpp:300-310 | Has an initializer exactly when `=` follows the name |
| Parser.ImportStatement | src/Parser.cpp:313-318 | Succeeds exactly on a string token then `;`, importing the string's value |
| Parser.Extern | src/Parser.cpp:320-345 | Builds an extern declaration and moves forward |
| Parser.ExternReads | src/Parser.cpp:320-345 | The return type is what `parseType` reads, the name is the identifier after it, then `(`, the parameters are what the parameter list reads, and a `;` ends the declaration |
| Parser.Condition | src/Parser.cpp:347-370 | Succeeds exactly when a `(`, an expression and a `)` follow. The condition is that expression and the cursor ends just past the `)` |
| Parser.Return | src/Parser.cpp:372-382 | Has no value exactly when `;` follows `return` |
| Parser.ExpressionStatement | src/Parser.cpp:384-401 | An assignment exactly when an identifier is followed by `=`, and an expression statement otherwise |
| Parser.BlockBody | src/Parser.cpp:403-413 | A block ends just after its `}` |
| ParserFacts.BlockLoopReads | src/Parser.cpp:403-413 | What the block loop appends are statements that `statement` reads one after another, each starting on neither `}` nor the end, up to the `}` it takes |
| ParserFacts.BlockBodyReads | src/Parser.cpp:403-413 | A block's statements are the `statement` results at successive cursors from its start up to the closing `}` |
| ParserFacts.SequenceBlockLoop | src/Parser.cpp:403-413 | Conversely, statements read one after another up to a `}` are exactly what the block loop appends, ending past that `}` |
| ParserFacts.SequenceBlockBody | src/Parser.cpp:403-413 | Conversely, statements read one after another from a block's start up to a `}` are exactly its body |
| Parser.SkipToSync | src/Parser.cpp:427-429 | Skips exactly the tokens that are neither `;` nor `}`, and stops at the end, a `;` or a `}` |
| Parser.Recover | src/Parser.cpp:427-432 | Ends at the end of input, just after a `;`, or on a `}` |
| Parser.Resync | src/Parser.cpp:427-432 | The corrected recovery. It moves whenever it does not start at the end, and stops at the end or just after a `;` or `}` |
| Parser.ParseLoop | src/Parser.cpp:415-437 | Errors are only added, and each lies between the start of the iteration and the end of the list |
| Parser.Parse | src/Parser.cpp:415-437 | Every recorded error lies within the token list |
| ParserFacts.LoopErrorsIncrease | src/Parser.cpp:415-437 | The corrected loop records errors at strictly increasing cursors |
| ParserFacts.ParseErrorsIncrease | src/Parser.cpp:415-437 | `parse` records its errors in input order, never two at one cursor |
| ParserFacts.LoopReadsStatements | src/Parser.cpp:418-424 | Each statement the loop adds is the table's result at a cursor the loop stood on, in order, each read ending before the next begins |
| ParserFacts.ParseReadsStatements | src/Parser.cpp:415-437 | Each statement of the program is what `statement` reads at the cursor of its iteration, in input order, each read ending before the next begins |
| ParserFacts.StatementDispatch | src/Parser.cpp:236-267 | Every statement built is of the kind its first token selects |
| ParserFacts.BraceFailsStatement | src/Parser.cpp:236-267 | A `}` starts no statement: `statement` fails on it without moving |
| ParserFacts.StuckOnBrace | src/Parser.cpp:418-434 | Once the loop as written stands on a `}`, no amount of fuel lets it finish |
| ParserFacts.StrayBraceNeverFinishes | src/Parser.cpp:415-437 | On the tokens of `}`, `parse` as written never finishes; the corrected loop records one error and an empty program |
| ParserFacts.AsWrittenAgrees | src/Parser.cpp:415-437 | Whenever the loop as written finishes, the corrected loop gives the same program and errors |
| ParserFacts.NoBraceEnoughFuel | src/Parser.cpp:415-437 | Without a `}`, the loop as written finishes within one iteration per token, with the corrected result |
| ParserExamples.Precedence | src/Parser.cpp:135-157 | `a + b * c` parses as `a + (b * c)` |
| ParserExamples.LeftAssociative | src/Parser.cpp:135-145 | `a - b - c` parses as `(a - b) - c` |
| ParserExamples.UnaryNests | src/Parser.cpp:159-167 | `- - x` parses as `-(-(x))` |
| ParserExamples.CallArguments | src/Parser.cpp:169-196 | `f(x, y)` is one call of `f` with the arguments in source order |
| ParserExamples.CallNeedsName | src/Parser.cpp:169-196 | A `(` after something other than an identifier is an error at the argument position |
| ParserExamples.QualifiedName | src/Parser.cpp:198-234 | `ns::name` is one identifier whose name keeps the `::` |
| CodeGen.AddBuiltin | src/CodeGenerator.cpp:307-313 | A builtin spelling adds its normalised name; any other name changes nothing |
| CodeGen.Translate | src/CodeGenerator.cpp:315-319 | A builtin becomes the helper of its normalised name; any other name is unchanged |
| CodeGen.TranslateChangesOnlyBuiltins | src/CodeGenerator.cpp:303-319 | The translation changes a name exactly when it is one of the four builtin spellings |
| CodeGen.HelpersPresentIffRecorded | src/CodeGenerator.cpp:29-43 | The `println` helper is written exactly when `std::println` is recorded, and the `print` helper exactly when `std::print` is |
| CodeGen.LiteralReadsBack | src/CodeGenerator.cpp:114-116 | The corrected literal, read by the lexer's string reader, gives back the value it was made from |
| CodeGen.QuoteEndsLiteralEarly | src/CodeGenerator.cpp:114-116 | The literal as written, for a value holding a quote, reads back as only the part before the quote |
| CodeGen.ScanExprFinds | src/CodeGenerator.cpp:321-370 | The pre-scan of an expression adds exactly the normalised names of the builtin calls anywhere in it, arguments included |
| CodeGen.ScanStmtFinds | src/CodeGenerator.cpp:321-370 | The pre-scan of a statement adds exactly the builtins called anywhere in it: conditions, branches, bodies, initializers and return values |
| CodeGen.PreScanFindsBuiltinsUsed | src/CodeGenerator.cpp:45-51 | After the first pass the recorded set is exactly the builtins the program calls |
| CodeGen.Margin | src/CodeGenerator.cpp:16-20 | Four blanks per level, none at level zero or below |
| CodeGen.GenStmt | src/CodeGenerator.cpp:83-108 | Every statement emitter leaves the indentation level as it found it |
| CodeGen.GenBlock | src/CodeGenerator.cpp:192-209 | A block, with or without braces, leaves the indentation level as it found it |
| CodeGen.GenExprWrites | src/CodeGenerator.cpp:65-155 | Emitting an expression appends exactly its reference text. It records no builtins beyond those the pre-scan finds in it |
| CodeGen.GenStmtWrites | src/CodeGenerator.cpp:83-301 | Emitting a statement appends exactly its reference text at the current level and keeps the level |
| CodeGen.IfWrites | src/CodeGenerator.cpp:211-248 | `if (cond) ` then the branch: a block opens on the same line and closes at the level; any other branch goes one level deeper on the next line. The same follows ` else ` |
| CodeGen.WhileWrites | src/CodeGenerator.cpp:250-269 | `while (cond) ` then the body, laid out as a branch of `if` |
| CodeGen.FunctionWrites | src/CodeGenerator.cpp:271-290 | The signature, then the body one level deeper and a closing brace without margin, or `;` for a prototype |
| CodeGen.ParamListWrites | src/CodeGenerator.cpp:271-301 | The parameter loop writes the parameters as `type name` joined by `, ` |
| CodeGen.GenBlockWrites | src/CodeGenerator.cpp:192-209 | A block writes each statement one level deeper, each followed by a line break, between braces when asked for. `addBraces` defaults to true (include/CodeGenerator.h:35) |
| CodeGen.GenerateWritesProgramText | src/CodeGenerator.cpp:8-63 | From a reset generator, the output is the includes, then the helpers of exactly the builtins used, then every top-level statement and a line break |
| CodeGen.GenerateLayout | src/CodeGenerator.cpp:45-63 | The output is the includes, then the helpers, then the statement texts each followed by a line break |
| CodeGen.GenerateStartsWithIncludes | src/CodeGenerator.cpp:22-27 | The output always opens with the three includes and a blank line |
| CodeGen.CalledBuiltinDefined | src/CodeGenerator.cpp:29-63 | A builtin called anywhere in the program has its helper defined before the program's statements, under the name its calls are translated to |
| CodeGen.ArgsTextJoins | src/CodeGenerator.cpp:141-155 | A call's arguments are written as their own texts joined by `, ` |
| CodeGen.StmtsTextTerminated | src/CodeGenerator.cpp:57-60 | A statement list is written as the statement texts, each followed by a line break |
| CodeGen.StmtTextStartsAtMargin | src/CodeGenerator.cpp:157-269 | Every statement except function and extern declarations starts with the margin of its level |
| CodeGen.ParensPerOperator | src/CodeGenerator.cpp:126-155 | An expression's text holds exactly one `(` and one `)` per binary operation, unary operation and call, when no leaf, operator or callee holds one |
| Pipeline.Compile | src/main.cpp:113-134 | Tokenize, parse, generate; the result always opens with the includes |
| Pipeline.EmptySourceCompilesToIncludes | src/main.cpp:113-134 | Empty source gives no tokens, an empty program with no errors, and the includes alone |
| Pipeline.CompileLayout | src/main.cpp:113-134 | The compiled text is the includes, the helpers of the builtins the parsed program calls, and the parsed statements line by line |

## Left out

- `main.cpp` beyond the three stage calls: command-line handling, file I/O, invoking the C compiler, and the messages it prints.
- `ImportProcessor` (src/ImportProcessor.cpp): `Pipeline.Compile` goes straight from `parse` to `generate`, without import expansion. `main.cpp` passes the loaded modules to `generate`, but the header's `generate` takes only the program, so the model has no modules argument.
- The headers under `include/` are used only for the node set and the `addBraces` default; what they declare without a body in `src/` is not modelled.
- Diagnostics: the text of `ParseError` messages and the `std::cerr` report in `parse` are not modelled; the model records each error's token position instead.
- Locale: `std::isspace`, `isdigit`, `isalpha` and `isalnum` are taken in the C locale, over ASCII (`ascii.dfy`).
- Integer widths: offsets, lines and columns are unbounded integers. The lexer's `size_t` to `int` casts of line and column are taken not to overflow.
- `CodeGen.Generate` uses the escaped literal of Finding 2. The literal as written is kept as `CodeGen.LiteralAsWritten`.
- Pipeline.Compile: chains the corrected stages, not the driver's as written. Its parse is `Parser.Parse`, whose recovery also takes a `}` (Finding 1), and its generator writes string literals escaped (Finding 2). On the source `}` the driver never gets past `parse`, and a string value holding a quote is written differently. Wherever the loop as written finishes, it gives the same program and errors (`ParserFacts.AsWrittenAgrees`).
- Pipeline.CompileLayout: describes the output of that corrected chain, for the same two reasons.
- Parser.Expression: its contract only says the cursor moves forward. The trees the ladder builds are pinned by the `ParserExamples` lemmas on concrete token lists (precedence, left associativity, unary nesting, calls, qualified names), not by an all-inputs contract.
- Parser.Binary: as for `Parser.Expression`: the contract states only forward progress.
- Parser.Unary: as for `Parser.Expression`: the contract states only forward progress.
- Parser.Call: as for `Parser.Expression`: the contract states only forward progress.
- Parser.Primary: as for `Parser.Expression`: the contract states only forward progress.
- Parser.If: the contract states that an `if` statement is built, not how its branches are chosen.
- Parser.While: the contract states that a `while` statement is built, not its parts.
- Parser.ParseAsWritten: the loop as written may never finish, so it is modelled with fuel. `None` means the fuel ran out.
- Ast.ExprDumpIndented: stated for expressions whose names, operators and literal texts hold no line break. A string value holding a newline (written `\n` in the source) puts the rest of the value at the very start of a line, so the bound fails there.
- Ast.StmtDumpIndented: stated under the same restriction, for every name and expression in the statement.
- Ast.ProgramDumpIndented: under the same restriction as `Ast.StmtDumpIndented`, for every top-level statement.
- CodeGen.ParensPerOperator: counts parentheses only. It does not prove that the text parses back to the same tree.

## Findings

| source | as written | input that shows it | evidently intended | confidence | as-written member | corrected member |
|---|---|---|---|---|---|---|
| src/Parser.cpp:427-432 | The recovery skips to a `;` or `}` but consumes only a `;`. `statement` fails on a `}` without moving, so at top level the loop comes back to the same `}` forever | the source text `}` (one `RIGHT_BRACE` token) | Recovery always makes progress; here the stray `}` is also taken | not executed | ParserFacts.StrayBraceNeverFinishes | Parser.Resync |
| src/CodeGenerator.cpp:114-116 | A string literal's value is written between quotes with nothing escaped, although the lexer decoded its escapes | the source string `"a\"b"`, whose value `a"b` is written as `"a"b"` | The value is escaped again, so the C literal denotes the same string | not executed | CodeGen.QuoteEndsLiteralEarly | CodeGen.LiteralReadsBack |
