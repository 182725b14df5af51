# BLAST: scanner, parser, interpreter and C tree printer

BLAST is a small teaching language. A program is a sequence of statements:

- expression statements ending in `.`;
- `if … then … else … end`;
- `while … do … end`.

Expressions use `:` for assignment, `+ - * / % **` and unary `-`, over numbers, double-quoted strings and names. The repository has two implementations.

**The Python implementation**

- A regex scanner (`blast/scanner.py`) turns source text into tokens (`blast/token.py`).
- A recursive-descent parser (`blast/parser.py`) builds a syntax tree (`blast/ast.py`).
- A tree-walking interpreter (`blast/interpreter.py`) evaluates the tree, keeping variables in a symbol table (`blast/symtab.py`).

**The C port**

- A parser (`src/parser.c`) has an extra precedence level for `= <>` and `< > <= >=`, calls `f(a b)` and `routine` definitions.
- A printer (`src/ast_printer.c`) writes a tree back as indented text, after a pass that reports error nodes.
- Token kinds are named by `src/token.c`.

**How the model is organised**

This project models those components in Dafny, one module per source file:

| module | source |
|---|---|
| `Tokens` | `blast/token.py` |
| `Lexing` | `blast/scanner.py` |
| `Ast` | `blast/ast.py` |
| `Parsing` | `blast/parser.py` |
| `ParseLaws` | laws about the Python parser |
| `SymbolTables` | `blast/symtab.py` |
| `Interpreting` | `blast/interpreter.py` |
| `TokenNames` | `src/token.c` |
| `CAst` | the tree of `src/ast.h`, plus the error node that src/ast_printer.c expects |
| `CParsing` | `src/parser.c` |
| `CParseLaws` | laws about the C parser |
| `CPrinting` | `src/ast_printer.c` |

`Text` and `Wrappers` hold shared helpers.

Each imperative component is modelled twice:

- as a function of the input and a cursor position (for example `Lexing.ScanFrom`, `Parsing.AdditionAt`, `CParsing.BlockTail`, `CPrinting.Render`);
- as a class with the source's fields (`Lexing.Scanner`, `Parsing.Parser`, `SymbolTables.SymbolTable`, `Interpreting.Interpreter`, `CParsing.CParser`, `CPrinting.Printer`), whose methods contain the source's loops.

Each method is proved to compute that function and to leave the fields in the state the function describes. The properties of the language are proved as lemmas about the functions: first-match lexing, the round trip from tokens to tree, precedence and associativity, evaluation order, and the error check of the printer.

A raised exception is a `Result.Err` carrying the cursor where it was raised. A C routine that spins forever is `CParsing.Step.Diverges`, and one that dereferences NULL is `Faults`. The tree constructors of both implementations store their arguments as given, so the nodes are datatype values.

Four behaviours of the code worth noting:

- **Token kind values.** `TokenType` numbers NUMBER as 0 and ROUTINE as 25, because `auto()` continues from `EOF = -1`.
- **`_primary` at the end of the tokens.** It raises an IndexError while building its own message, so the "Unexpected end of file" text is never produced.
- **Parsing a source.** `Interpreter.evaluate(source=…)` can never produce a value. `parse()` always returns a block, and the interpreter has no `visit_block_stmt`.
- **Which argument wins.** The docstrings of `Parser.__init__` and `Interpreter.evaluate` (blast/parser.py:28-30, blast/interpreter.py:27-29) say the first argument provided is used. The code checks `tokens` before `source` in the parser (blast/parser.py:32-37), and `ast`, then `tokens`, then `source` in the interpreter (blast/interpreter.py:32-39). The model follows the code (`Parsing.InitialTokens`, `Interpreting.TreeToRun`).

## Model

| member | source | states |
|---|---|---|
| Text.IntToStringRoundTrip | blast/token.py:33-34 | the decimal spelling of an int, as `repr` puts it in a token, reads back as that int |
| Text.IntToStringInjective | blast/token.py:33-34 | two different ints are spelled differently |
| Tokens.Ordinal | blast/token.py:46-84 | definition: the integer value of each `TokenType` member; its laws are the three `Ordinals…` rows |
| Tokens.OrdinalsFollowDeclarationOrder | blast/token.py:46-84 | EOF is -1 and every later member is one more than the member declared before it |
| Tokens.OrdinalsAreDistinct | blast/token.py:46-84 | every kind is in the declaration order and no two kinds share a value |
| Tokens.OrdinalIdentifiesKind | blast/token.py:46-84 | values lie in -1..25 and reading a kind back from its value gives the kind |
| Tokens.Repr | blast/token.py:33-34 | definition: `<` + the kind's integer value + `: ` + the lexeme + `>`; `Tokens.Str` and `Tokens.ReprInjective` state what it keeps |
| Tokens.Equals | blast/token.py:39-40 | definition: kinds equal and lexemes equal; `Tokens.EqualsIsStructural` ties it to token equality |
| Tokens.Hash | blast/token.py:42-43 | definition: CPython's tuple hash of the kind's value and the lexeme's hash, with the string hash a parameter; `Tokens.HashAgreesWithEquals` states its law |
| Tokens.EqualsIsStructural | blast/token.py:39-40 | `__eq__` holds exactly when kind and lexeme are both equal |
| Tokens.Str | blast/token.py:36-37 | `str(token)` is the lexeme, the very text `repr` shows after the colon |
| Tokens.ReprInjective | blast/token.py:33-34 | `repr` as `<kind: lexeme>` loses nothing: equal reprs mean equal tokens, even when a lexeme contains ": " |
| Tokens.HashAgreesWithEquals | blast/token.py:42-43 | tokens `__eq__` calls equal have equal `hash((type, lexeme))`, and the hash is never -1 |
| Lexing.MatchPattern | blast/scanner.py:18-44 | definition: `re.match` of the pattern of one kind at the start of the text, None for kinds without a pattern; `Lexing.MatchConsumesSpelling` and `Lexing.MatchNeedsLead` state its laws |
| Lexing.FirstMatch | blast/scanner.py:88-93 | definition: the first kind, in the dictionary's order, whose pattern matches, with its match; `Lexing.FirstMatchIsEarliest` characterises it |
| Lexing.Scan | blast/scanner.py:56-66 | definition: `Scanner(source).scan_tokens()`, the tokens of `ScanFrom` at 0 or its error; `Lexing.ScanReproducesSource` and `Lexing.TrailingSpaceFails` state its laws |
| Lexing.FixedText | blast/scanner.py:21-42 | operator, punctuation and keyword patterns match a fixed text of one to five characters |
| Lexing.DigitRun | blast/scanner.py:19 | `\d+` is greedy: the run stops at the first non-digit or at the end |
| Lexing.WordRun | blast/scanner.py:43 | `\w+` is greedy: the run stops at the first non-word character or at the end |
| Lexing.QuoteFreeRun | blast/scanner.py:20 | `[^"]*` stops at the first double quote |
| Lexing.MatchConsumesSpelling | blast/scanner.py:19-43 | a pattern match consumes exactly the token's spelling (string quotes included), at least one character, ending in a non-space |
| Lexing.FirstMatchTakesEarliest | blast/scanner.py:88-93 | the first matching entry of the table is chosen, whatever later entries would match: no longest-match rule |
| Lexing.FirstMatchIsEarliest | blast/scanner.py:88-95 | conversely, a choice is a matching entry with no matching entry before it, and nothing is chosen exactly when no entry matches |
| Lexing.FirstMatchFromMatches | blast/scanner.py:89-92 | the kind the loop reports is one whose pattern matches, with that match |
| Lexing.SkipSpace | blast/scanner.py:78-80 | `_skip_whitespace` stops at the first non-space; it fails with an index error exactly when only whitespace is left |
| Lexing.ScanOne | blast/scanner.py:82-95 | one `_scan_token` moves the cursor forward and never past the end, or raises |
| Lexing.ScanFrom | blast/scanner.py:56-66 | `scan_tokens` stops within the source and, when nothing is raised, exactly at its end |
| Lexing.TrailingSpaceFails | blast/scanner.py:78-80 | a source ending in whitespace never scans cleanly: `_skip_whitespace` reads past the end |
| Lexing.ScanOneSpelling | blast/scanner.py:82-93 | one token step reads whitespace, then exactly the token's spelling |
| Lexing.ScanReproducesSource | blast/scanner.py:56-93 | a clean scan loses nothing but whitespace: the source is the token spellings in order, each after a whitespace run |
| Lexing.LayoutWithoutGaps | blast/scanner.py:56-93 | without the whitespace runs the layout is the spellings back to back, quotes put back around strings |
| Lexing.MatchNeedsLead | blast/scanner.py:19-43 | a pattern only matches text that starts with a character it can start with |
| Lexing.DigitStartsNumber | blast/scanner.py:18-19 | text starting with a digit is read as NUMBER |
| Lexing.PlainWordIsIdentifier | blast/scanner.py:37-43 | a word that no keyword prefixes is an IDENTIFIER read to its end |
| Lexing.KeywordIsMatchedAsPrefix | blast/scanner.py:37 | a keyword matches as a prefix: text starting with `if` (e.g. `iffy`) gives IF |
| Lexing.ExponentBeforeMultiplication | blast/scanner.py:23-24 | `**` is EXP although MUL would match its first character |
| Lexing.LessPassesOverEarlierEntries | blast/scanner.py:19-29 | text starting with `<` but not `<>` passes over the ten entries before LE |
| Lexing.LessEqualBeforeLess | blast/scanner.py:28-31 | `<=` is read whole as LE, not as LT followed by EQ |
| Lexing.NumberTakesPointOnlyBeforeDigit | blast/scanner.py:19 | a point belongs to a number exactly when a digit follows it (`4.0` is one NUMBER, `2.` stops before the point) |
| Lexing.PointIsPeriod | blast/scanner.py:34 | a point left over is PERIOD |
| Lexing.FirstMatchLoop | blast/scanner.py:88-93 | the loop over the table returns the first match |
| Lexing.Scanner.constructor | blast/scanner.py:46-54 | a new scanner holds the source, no tokens and cursor 0 |
| Lexing.Scanner.Advance | blast/scanner.py:72-76 | `_advance` moves one step and never past the end of the source |
| Lexing.Scanner.SkipWhitespace | blast/scanner.py:78-80 | the cursor ends where `SkipSpace` says, or at the end with the index error |
| Lexing.Scanner.ScanToken | blast/scanner.py:82-95 | appends the token `ScanOne` reads and moves the cursor by the whole match, or raises with the tokens unchanged |
| Lexing.Scanner.ScanTokens | blast/scanner.py:56-66 | appends the tokens `ScanFrom` reads and returns the list, or the error; no EOF token is added |
| Ast.Repr | blast/ast.py:54-287 | definition: each node's `__repr__`, `<` and the fields' reprs separated by spaces and `>`; `Ast.StrReprRoundTrip` and `Ast.ReprAll` state its parts |
| Ast.NumberRepr | blast/ast.py:110-111 | definition: `repr` of the stored number, an int's decimal digits or a float's positional `whole.frac`; exponent form is under Left out |
| Ast.StrRepr | blast/ast.py:137-138 | definition: `repr` of a str, quoted with the quote Python picks and escaped; `Ast.StrReprRoundTrip` reads it back |
| Ast.ListRepr | blast/ast.py:224-225 | definition: `repr` of a list, the items' reprs separated by `, ` in square brackets |
| Ast.VisitorMethod | blast/ast.py:57-298 | each node's `accept` calls `visit_<kind>_expr` for expressions and `visit_<kind>_stmt` for statements |
| Ast.VisitorMethodIdentifiesKind | blast/ast.py:57-298 | two nodes call the same visitor method only when they are the same kind of node |
| Ast.StripTrailingZeros | blast/ast.py:110-111 | for a float Python writes in positional form (from 1e-4 up to 1e16), the fraction `repr` shows is `0` when every digit is zero, and otherwise the digits with exactly the trailing zeros removed (a prefix ending in a non-zero digit) |
| Ast.EscapeAllRoundTrip | blast/ast.py:137-138 | escaping a str for `repr` loses nothing |
| Ast.StrReprRoundTrip | blast/ast.py:164-165 | `repr` of a string or name reads back as that text |
| Ast.ReprAll | blast/ast.py:224-225 | a block's repr lists one repr per statement, the i-th being the repr of the i-th statement |
| Parsing.ConsumeAt | blast/parser.py:54-63 | `_consume` succeeds exactly when `_check` holds and returns the current token; otherwise "Unexpected end of file" at the end, "Unexpected token" elsewhere, raised in place |
| Parsing.NumberLiteral | blast/parser.py:130-138 | a NUMBER lexeme becomes an int exactly when it is all digits, otherwise a float (digits, one point, digits) or an error; exact for the lexemes the scanner produces of at most 4300 digits |
| Parsing.ExpressionAt | blast/parser.py:72-73 | `_expression` never moves the cursor back or past the end |
| Parsing.AssignmentAt | blast/parser.py:75-82 | `_assignment` never moves the cursor back or past the end |
| Parsing.AdditionAt | blast/parser.py:84-95 | `_addition` never moves the cursor back or past the end |
| Parsing.MultiplicationAt | blast/parser.py:97-106 | `_multiplication` never moves the cursor back or past the end |
| Parsing.ExponentAt | blast/parser.py:108-117 | `_exponent` never moves the cursor back or past the end |
| Parsing.UnaryAt | blast/parser.py:119-126 | `_unary` consumes at least one token when it succeeds |
| Parsing.PrimaryAt | blast/parser.py:128-151 | `_primary` consumes at least one token when it succeeds, and otherwise raises |
| Parsing.StatementAt | blast/parser.py:162-169 | a statement that parses consumes at least one token |
| Parsing.ExpressionStatementAt | blast/parser.py:171-175 | an expression statement consumes at least one token when it succeeds |
| Parsing.IfStatementAt | blast/parser.py:177-190 | an if statement consumes at least one token when it succeeds |
| Parsing.WhileStatementAt | blast/parser.py:192-198 | a while statement consumes at least one token when it succeeds |
| Parsing.BlockTail | blast/parser.py:200-206 | a block that succeeds stops at a token of a terminator kind, left in place |
| Parsing.ProgramTail | blast/parser.py:153-160 | `_program` reads to the end of the tokens and returns a block holding the statements read so far, in order, followed by the rest |
| Parsing.Program | blast/parser.py:40-46 | definition: `parse()` from the first token, the block `_program` reads or its error; `ParseLaws.ProgramReadsUnparse` states its round trip |
| Parsing.InitialTokens | blast/parser.py:32-37 | definition: the token list when given, otherwise the scan of the source, otherwise the no-input error; `Parsing.Parser.New` is proved against it |
| Parsing.Parser.constructor | blast/parser.py:32-38 | holds the given tokens with the cursor at 0 |
| Parsing.Parser.New | blast/parser.py:19-38 | a token list, when given, is used; otherwise the source is scanned; a call with neither, or a scan error, raises |
| Parsing.Parser.Advance | blast/parser.py:68-70 | `_advance` moves one step and never past the end of the tokens |
| Parsing.Parser.Consume | blast/parser.py:54-63 | returns what `ConsumeAt` gives; the cursor moves by one on success and stays on failure |
| Parsing.Parser.Parse | blast/parser.py:40-46 | `parse` gives what `ProgramTail` gives, the cursor where it stopped |
| Parsing.Parser.Expression | blast/parser.py:72-73 | agrees with `ExpressionAt`, cursor included |
| Parsing.Parser.Assignment | blast/parser.py:75-82 | agrees with `AssignmentAt`, cursor included |
| Parsing.Parser.Addition | blast/parser.py:84-95 | the loop agrees with `AdditionAt`, cursor included |
| Parsing.Parser.Multiplication | blast/parser.py:97-106 | the loop agrees with `MultiplicationAt`, cursor included |
| Parsing.Parser.Exponent | blast/parser.py:108-117 | agrees with `ExponentAt`, cursor included |
| Parsing.Parser.Unary | blast/parser.py:119-126 | agrees with `UnaryAt`, cursor included |
| Parsing.Parser.Primary | blast/parser.py:128-151 | agrees with `PrimaryAt`, cursor included |
| Parsing.Parser.Statement | blast/parser.py:162-169 | agrees with `StatementAt`, cursor included |
| Parsing.Parser.ExpressionStatement | blast/parser.py:171-175 | agrees with `ExpressionStatementAt`, cursor included |
| Parsing.Parser.IfStatement | blast/parser.py:177-190 | agrees with `IfStatementAt`, cursor included |
| Parsing.Parser.WhileStatement | blast/parser.py:192-198 | agrees with `WhileStatementAt`, cursor included |
| Parsing.Parser.BlockStatementUntil | blast/parser.py:200-206 | the loop agrees with `BlockTail`, cursor included |
| ParseLaws.UnaryIsExpression | blast/parser.py:72-126 | a unary operand followed by no operator is a whole expression at every precedence level |
| ParseLaws.SumIsLeftAssociative | blast/parser.py:84-95 | `a - b - c` parses as `(a - b) - c` |
| ParseLaws.ProductsGroupBeforeSum | blast/parser.py:84-106 | `a + b * c / d` parses as `a + ((b * c) / d)` |
| ParseLaws.PowerIsRightAssociative | blast/parser.py:108-117 | `a ** b ** c` parses as `a ** (b ** c)` |
| ParseLaws.NegationBindsTighterThanPower | blast/parser.py:108-126 | `- a ** b` parses as `(- a) ** b` |
| ParseLaws.AssignmentIsRightAssociative | blast/parser.py:75-82 | `a : b : c` parses as `a : (b : c)` |
| ParseLaws.NumberLexemeConverts | blast/parser.py:130-138 | every number the parser can build has a lexeme that converts to it |
| ParseLaws.UnaryReadsUnparse | blast/parser.py:119-151 | the parenthesised tokens of a well-formed expression are read back by `_unary` as that expression, ending just past them |
| ParseLaws.ExpressionReadsUnparse | blast/parser.py:72-151 | round trip: every expression tree the parser builds is read back, exactly and in full, from its tokens |
| ParseLaws.StatementReadsUnparse | blast/parser.py:162-198 | the tokens of a well-formed statement are read back by `_statement` as that statement |
| ParseLaws.BlockReadsWhole | blast/parser.py:200-206 | `_block_statement_until` reads the tokens of a block followed by a terminator back as that block |
| ParseLaws.ProgramReadsUnparse | blast/parser.py:153-160 | round trip: `parse()` reads the tokens of a block of well-formed statements back as that block |
| SymbolTables.Lookup | blast/symtab.py:17-18 | definition: `symbols[name]`, the bound value or None where Python raises KeyError; the three laws below state its behaviour under `__setitem__` |
| SymbolTables.FreshTableBindsNothing | blast/symtab.py:10-18 | a fresh table binds nothing, so every lookup fails |
| SymbolTables.GetAfterSet | blast/symtab.py:17-21 | a get after a set of the same name gives the value set |
| SymbolTables.SetOverwrites | blast/symtab.py:20-21 | a second set of a name replaces the first entirely |
| SymbolTables.SetLeavesOthers | blast/symtab.py:20-21 | a set leaves every other name's binding alone and binds no other name |
| SymbolTables.SymbolTable.constructor | blast/symtab.py:10-12 | a new table is empty |
| SymbolTables.SymbolTable.Get | blast/symtab.py:17-18 | gives a value exactly when the name is bound, and then the bound value (None for KeyError) |
| SymbolTables.SymbolTable.Set | blast/symtab.py:20-21 | the table becomes the old one with the name rebound |
| Interpreting.FloorMod | blast/interpreter.py:64-65 | definition: Python's `%` on ints, written with Dafny's Euclidean `%`; `Interpreting.FloorModIsPythonRemainder` proves it is Python's floored remainder |
| Interpreting.FloorDiv | blast/interpreter.py:64-65 | definition: Python's `//` on ints, the quotient rounded down, the partner of `FloorMod` in `FloorModIsPythonRemainder` |
| Interpreting.Power | blast/interpreter.py:66-67 | definition: `a ** n` on ints for a natural `n`; `Interpreting.IntPower` states how `**` uses it |
| Interpreting.NumberPower | blast/interpreter.py:66-67 | definition: `**` on two numbers, int for int operands with a non-negative exponent, float otherwise, ZeroDivisionError for 0 to a negative power; `Interpreting.IntPower` states it |
| Interpreting.Eval | blast/interpreter.py:43-88 | definition: `accept` with the interpreter as visitor on a table; its laws are `EvalKeepsBindings`, `NoAssignmentKeepsTable`, `RightOperandFirst`, `AssignmentThenRead` and the rows after them |
| Interpreting.FloorModIsPythonRemainder | blast/interpreter.py:64-65 | `%` on ints takes the divisor's sign, is smaller than it in size, and completes floor division |
| Interpreting.Arithmetic | blast/interpreter.py:55-67 | operators other than `+ - * / % **` give None; None operands and a zero divisor raise; ints stay ints under `+ - *`; `/` gives the float whose product with the divisor is the dividend |
| Interpreting.IntRemainder | blast/interpreter.py:64-65 | `%` on two ints is Python's floored remainder |
| Interpreting.IntPower | blast/interpreter.py:66-67 | `**` on ints is the int power for a non-negative exponent; a zero base with a negative exponent raises; otherwise the reciprocal float |
| Interpreting.Negate | blast/interpreter.py:69-73 | `-v` is defined exactly on numbers, flips the sign and keeps an int an int |
| Interpreting.NegateTwice | blast/interpreter.py:69-73 | negating twice gives the value back |
| Interpreting.EvalKeepsBindings | blast/interpreter.py:43-88 | evaluation never unbinds a name |
| Interpreting.NoAssignmentKeepsTable | blast/interpreter.py:43-88 | a node without an assignment leaves the table as it was |
| Interpreting.RightOperandFirst | blast/interpreter.py:43-53 | the right operand is evaluated first: its error is the result whatever the operator and the left operand |
| Interpreting.AssignmentThenRead | blast/interpreter.py:47-51 | `x : e` yields None and binds `x` to the value of `e`; reading `x` then gives it back; other bindings are those `e` left |
| Interpreting.BoundNameReads | blast/interpreter.py:81-83 | a bound name reads as its value |
| Interpreting.AssignmentNeedsVariable | blast/interpreter.py:47-49 | `:` with anything but a variable on the left raises "Invalid assignment target" |
| Interpreting.UnboundNameRaises | blast/interpreter.py:81-85 | an unbound name raises "Undefined variable" |
| Interpreting.ParsedProgramHasNoVisitor | blast/interpreter.py:32-41 | evaluating tokens that parse fails with the missing `visit_block_stmt` and leaves the table alone |
| Interpreting.SourceNeverEvaluates | blast/interpreter.py:32-41 | `evaluate(source=…)` never gives a value and leaves the table alone |
| Interpreting.TreeToRun | blast/interpreter.py:32-39 | definition: a given tree, otherwise the parse of given tokens, otherwise the parse of the scanned source, otherwise the no-input error |
| Interpreting.Run | blast/interpreter.py:20-41 | definition: `evaluate` on a table, `Eval` of the tree `TreeToRun` settles on; `ParsedProgramHasNoVisitor` and `SourceNeverEvaluates` state its laws |
| Interpreting.Interpreter.constructor | blast/interpreter.py:15-18 | a new interpreter has a fresh, empty table |
| Interpreting.Interpreter.Evaluate | blast/interpreter.py:20-41 | a given tree is used, otherwise the parse of given tokens, otherwise the parse of the scanned source; that tree is stored in `_ast`, the result and table are those `Run` gives, and all-None raises |
| Interpreting.Interpreter.ParseWith | blast/interpreter.py:34-37 | `Parser(…).parse()` gives the parse of the tokens `__init__` settles on, or its error |
| Interpreting.Interpreter.Accept | blast/interpreter.py:41 | `accept` gives the result and the table `Eval` gives |
| Interpreting.Interpreter.VisitBinary | blast/interpreter.py:43-67 | agrees with `Eval` on a binary node, table included |
| Interpreting.Interpreter.VisitUnary | blast/interpreter.py:69-73 | agrees with `Eval` on a unary node, table included |
| Interpreting.Interpreter.VisitNumber | blast/interpreter.py:75-76 | gives the stored number |
| Interpreting.Interpreter.VisitString | blast/interpreter.py:78-79 | gives the stored text |
| Interpreting.Interpreter.VisitVariable | blast/interpreter.py:81-85 | gives the bound value exactly when the name is bound, otherwise "Undefined variable" |
| Interpreting.Interpreter.VisitExprStmt | blast/interpreter.py:87-88 | gives the expression's value, table included |
| TokenNames.EnumValue | src/token.h:7-45 | definition: the value of each `enum token_type` member, from 0 in declaration order |
| TokenNames.Table | src/token.c:5-33 | `TOKEN_TYPE_STR`: exactly 27 entries, in the order the array lists them |
| TokenNames.FirstValue | src/token.c:35-42 | definition: the value of the first entry from a position on whose key matches, or "UNKNOWN"; `FirstValueFinds` and `FirstValueMisses` characterise it |
| TokenNames.Name | src/token.c:35-42 | definition: `token_type_to_string`, `FirstValue` over the whole table; the name rows below state its values |
| TokenNames.EnumValueFollowsPythonOrder | src/token.h:7-45 | the C enumeration lists the kinds in Python's order, one higher, with no two kinds sharing a value |
| TokenNames.TokenTypeToString | src/token.c:35-42 | the counting loop returns the value of the first entry whose key is the type, or "UNKNOWN" |
| TokenNames.KeysAreDistinct | src/token.c:5-33 | the keys of `TOKEN_TYPE_STR` are pairwise distinct |
| TokenNames.FirstValueFinds | src/token.c:37-39 | the lookup gives the value of the first entry with the key |
| TokenNames.FirstValueMisses | src/token.c:41 | with no entry for the key the lookup gives "UNKNOWN" |
| TokenNames.EntryIsFound | src/token.c:5-39 | the key of any entry gives that entry's value, so the scan order does not matter |
| TokenNames.UnknownOutsideEnumeration | src/token.c:5-41 | a number is named "UNKNOWN" exactly when it lies outside 0..26 |
| TokenNames.ArithmeticOperatorNames | src/token.c:10-16 | arithmetic operators and `:` are named by the spelling the scanner matches |
| TokenNames.ComparisonNames | src/token.c:17-22 | comparisons are named by their spelling |
| TokenNames.PunctuationNames | src/token.c:23-25 | `.` is named `.`, the parentheses `^(` and `^)` |
| TokenNames.KeywordNames | src/token.c:26-32 | keywords are named by their spelling, `routine` included |
| TokenNames.OtherKindNames | src/token.c:6-9 | EOF, numbers, strings and identifiers have descriptive names |
| CParsing.Propagate | src/parser.c:128-246 | a spin or a crash passes on unchanged, at the same cursor |
| CParsing.ConsumedTo | src/parser.c:428-438 | an ignored `consume` moves one step exactly when the current token is listed |
| CParsing.ExprAt | src/parser.c:243-246 | `expr` stays within the tokens and never crashes |
| CParsing.AssignmentAt | src/parser.c:224-241 | `expr_assignment` stays within the tokens and never crashes |
| CParsing.EqualityAt | src/parser.c:205-222 | `expr_equality` stays within the tokens and never crashes |
| CParsing.RelationalAt | src/parser.c:185-203 | `expr_relational` stays within the tokens and never crashes |
| CParsing.AdditiveAt | src/parser.c:166-183 | `expr_additive` stays within the tokens and never crashes |
| CParsing.MultiplicativeAt | src/parser.c:147-164 | `expr_multiplicative` stays within the tokens and never crashes |
| CParsing.ExponentAt | src/parser.c:128-145 | `expr_exponent` stays within the tokens and never crashes |
| CParsing.UnaryAt | src/parser.c:113-126 | `expr_unary` stays within the tokens and never crashes |
| CParsing.PrimaryAt | src/parser.c:90-111 | `expr_primary` reads nothing exactly when no number, string, identifier or `(` is current, and then gives the "expected expression" error node |
| CParsing.VariableAt | src/parser.c:62-88 | a variable or call consumes at least its identifier |
| CParsing.ArgumentsTail | src/parser.c:73-80 | a finished argument loop ends just past a `)` and holds the arguments read so far, in order, followed by the rest |
| CParsing.ExprStmtAt | src/parser.c:387-398 | `stmt_expr` gives an expression statement |
| CParsing.StmtAt | src/parser.c:269-281 | `stmt` gives an if, while or routine exactly on that keyword, otherwise an expression statement |
| CParsing.BlockTail | src/parser.c:283-303 | `stmt_block` stops at a terminator or the end of the tokens, and holds the statements read so far, in order, followed by the rest |
| CParsing.IfAt | src/parser.c:305-330 | `stmt_if` gives an if with a block as its then part, and a block as its else part when it has one |
| CParsing.WhileAt | src/parser.c:332-350 | `stmt_while` gives a while with a block as its body |
| CParsing.ParamsTail | src/parser.c:363-369 | the parameter loop stops at a `)` with one identifier per token read, or faults where neither an identifier nor `)` stands |
| CParsing.RoutineAt | src/parser.c:352-385 | `stmt_routine` gives a routine with a block body, named exactly when an identifier follows `routine` |
| CParsing.Program | src/parser.c:248-267 | definition: `program` from the first token, `ProgramTail` with nothing read yet; `CParseLaws.ProgramStallsOnKeyword` states where it spins |
| CParsing.ProgramTail | src/parser.c:248-267 | `program` reads to the end of the tokens and returns a block holding the statements read so far, followed by the rest |
| CParsing.CParser.constructor | src/parser.h:13-19 | a new parser holds the tokens with cursor 0 |
| CParsing.CParser.Check | src/parser.c:410-420 | `check` is false at the end, otherwise whether the current kind is listed |
| CParsing.CParser.Advance | src/parser.c:422-426 | `advance` moves one step and never past the end |
| CParsing.CParser.Consume | src/parser.c:428-438 | returns the current token and moves one step when it is listed, otherwise NULL without moving |
| CParsing.CParser.Parse | src/parser.c:39-42 | `parser_parse` agrees with `ExprAt`: one expression, not a program |
| CParsing.CParser.ExprNumber | src/parser.c:44-51 | a number node from the current lexeme, one token consumed |
| CParsing.CParser.ExprString | src/parser.c:53-60 | a string node from the current lexeme, one token consumed |
| CParsing.CParser.ExprVariable | src/parser.c:62-88 | the loop agrees with `VariableAt`, cursor included |
| CParsing.CParser.ExprPrimary | src/parser.c:90-111 | agrees with `PrimaryAt`, cursor included |
| CParsing.CParser.ExprUnary | src/parser.c:113-126 | agrees with `UnaryAt`, cursor included |
| CParsing.CParser.ExprExponent | src/parser.c:128-145 | agrees with `ExponentAt`, cursor included |
| CParsing.CParser.ExprMultiplicative | src/parser.c:147-164 | the loop agrees with `MultiplicativeAt`, cursor included |
| CParsing.CParser.ExprAdditive | src/parser.c:166-183 | the loop agrees with `AdditiveAt`, cursor included |
| CParsing.CParser.ExprRelational | src/parser.c:185-203 | the loop agrees with `RelationalAt`, cursor included |
| CParsing.CParser.ExprEquality | src/parser.c:205-222 | the loop agrees with `EqualityAt`, cursor included |
| CParsing.CParser.ExprAssignment | src/parser.c:224-241 | agrees with `AssignmentAt`, cursor included |
| CParsing.CParser.Expr | src/parser.c:243-246 | agrees with `ExprAt`, cursor included |
| CParsing.CParser.Program | src/parser.c:248-267 | the loop agrees with `ProgramTail`, cursor included |
| CParsing.CParser.Stmt | src/parser.c:269-281 | agrees with `StmtAt`, cursor included |
| CParsing.CParser.StmtBlock | src/parser.c:283-303 | the loop agrees with `BlockTail`, cursor included |
| CParsing.CParser.StmtIf | src/parser.c:305-330 | agrees with `IfAt`, cursor included |
| CParsing.CParser.StmtWhile | src/parser.c:332-350 | agrees with `WhileAt`, cursor included |
| CParsing.CParser.StmtRoutine | src/parser.c:352-385 | the loop agrees with `RoutineAt`, cursor included |
| CParsing.CParser.StmtExpr | src/parser.c:387-398 | agrees with `ExprStmtAt`, cursor included |
| CParseLaws.UnaryIsExpression | src/parser.c:113-246 | a unary operand followed by no binary operator is a whole expression |
| CParseLaws.ModuloEndsExpression | src/parser.c:151-153 | only `*` and `/` are multiplicative: a `%` after an operand ends the expression |
| CParseLaws.EqualityIsLeftAssociative | src/parser.c:205-222 | `a = b <> c` parses as `(a = b) <> c` |
| CParseLaws.RelationalIsLeftAssociative | src/parser.c:185-203 | `a < b > c` parses as `(a < b) > c` |
| CParseLaws.AdditiveIsLeftAssociative | src/parser.c:166-183 | `a - b - c` parses as `(a - b) - c` |
| CParseLaws.MultiplicativeIsLeftAssociative | src/parser.c:147-164 | `a / b * c` parses as `(a / b) * c` |
| CParseLaws.ExponentBindsTighterThanMultiplicative | src/parser.c:128-164 | `a * b ** c` parses as `a * (b ** c)` |
| CParseLaws.NegationBindsTighterThanPower | src/parser.c:113-145 | `- a ** b` parses as `(- a) ** b`, because `expr_exponent` reads its left operand with `expr_unary` |
| CParseLaws.EqualityBindsTighterThanAssignment | src/parser.c:205-241 | `a : b = c` parses as `a : (b = c)` |
| CParseLaws.RelationalBindsTighterThanEquality | src/parser.c:185-222 | `a = b < c` parses as `a = (b < c)` |
| CParseLaws.AdditiveBindsTighterThanRelational | src/parser.c:166-203 | `a < b + c` parses as `a < (b + c)` |
| CParseLaws.MultiplicativeBindsTighterThanAdditive | src/parser.c:147-183 | `a + b * c` parses as `a + (b * c)` |
| CParseLaws.PowerIsRightAssociative | src/parser.c:128-145 | `a ** b ** c` parses as `a ** (b ** c)` |
| CParseLaws.AssignmentIsRightAssociative | src/parser.c:224-241 | `a : b : c` parses as `a : (b : c)` |
| CParseLaws.ParseStopsAfterExpression | src/parser.c:39-42 | `parser_parse` reads one expression and leaves the `.` after it unread |
| CParseLaws.CallReadsArguments | src/parser.c:62-88 | a call collects its arguments in order, with no separators, up to the `)` after the last, and steps over it |
| CParseLaws.NothingToRead | src/parser.c:90-111 | where nothing can start an expression, `expr` gives the "expected expression" node and reads no token |
| CParseLaws.UnclosedArgumentsDiverge | src/parser.c:73-79 | an argument list that reaches a token starting no expression, or the end, before its `)` never ends |
| CParseLaws.StrayTokenStallsBlock | src/parser.c:283-303 | a block that reaches a token that starts nothing and ends nothing never ends |
| CParseLaws.ProgramStallsOnKeyword | src/parser.c:248-259 | `program` reads expression statements only: `if`, `while` or `routine` makes it spin |
| CParseLaws.ElseOnlyAfterElseKeyword | src/parser.c:305-330 | an if gets an else block only when its then block stops at `else`; otherwise it has none |
| CParseLaws.ParamsFaultAt | src/parser.c:363-369 | a parameter token that is neither an identifier nor `)` (or the end) makes the loop read a NULL token |
| CParseLaws.NonIdentifierParameterFaults | src/parser.c:352-369 | `routine f(` followed by such a parameter faults |
| CParseLaws.IfWithoutElseIsParsed | src/parser.c:305-330 | `if x then end` gives an if with an empty then block and no else block |
| CPrinting.Render | src/ast_printer.c:29-181 | definition: what `visit(n, depth)` writes; every `Printer.Visit…` method is proved to write it, and the rows below state its laws |
| CPrinting.PrecheckAsWritten | src/ast_printer.c:190-223 | definition: `ast_error_precheck` as written, reading the else block of every if; the as-written half of the finding |
| CPrinting.FirstError | src/ast_printer.c:190-223 | definition: the check with the else block read only when it is set; the corrected half of the finding, characterised by `FirstErrorIsFirstMessage` |
| CPrinting.Indent | src/ast_printer.c:127 | `%*s` with `depth * 4` writes four spaces per level |
| CPrinting.FirstErrorIsFirstMessage | src/ast_printer.c:190-223 | the check finds an error exactly when the tree holds an error node, and reports the first one, left to right |
| CPrinting.AsWrittenAgreesWhenElsesSet | src/ast_printer.c:190-223 | where every if has an else block, the check as written and the corrected one agree |
| CPrinting.PrecheckOfIfWithoutElse | src/ast_printer.c:213-215 | on `if x then end` the check as written reads the unset else block, and the corrected one finds nothing |
| CPrinting.PrecheckReadsUnsetElse | src/ast_printer.c:213-215 | the check as written reads the unset else block of every error-free if without an else |
| CPrinting.ExpressionIgnoresDepth | src/ast_printer.c:29-83 | an expression prints the same at every depth |
| CPrinting.StatementIsIndentedLines | src/ast_printer.c:125-181 | a statement starts with its depth's indentation and ends with a newline |
| CPrinting.StatementsAppend | src/ast_printer.c:132-136 | a block prints its statements one after another at its own depth |
| CPrinting.BlockAppend | src/ast_printer.c:132-136 | adding a statement at the end of a block adds its text at the end |
| CPrinting.ArgumentsAppend | src/ast_printer.c:76-81 | call arguments are separated by single spaces, with none after the last |
| CPrinting.CallAppend | src/ast_printer.c:73-83 | adding an argument adds a space and its text before the `)` |
| CPrinting.ParenthesesBalance | src/ast_printer.c:44-83 | an expression prints as many `)` as `(` |
| CPrinting.Printer.AstPrinter | src/ast_printer.c:183-188 | reports the first error node on standard error and prints nothing else; otherwise prints the tree at depth 0 |
| CPrinting.Printer.ErrorPrecheck | src/ast_printer.c:190-223 | says whether there is an error node, and writes the first one's message to standard error |
| CPrinting.Printer.ErrorPrecheckAll | src/ast_printer.c:201-212 | the loops over arguments and statements stop at the first error |
| CPrinting.Printer.Visit | src/ast_printer.c:85-123 | `visit` writes what `Render` gives, and nothing for an error node |
| CPrinting.Printer.VisitOperand | src/ast_printer.c:46-62 | an operand is wrapped in parentheses exactly when it is binary |
| CPrinting.Printer.VisitBinary | src/ast_printer.c:44-63 | `visit_expr_binary` writes `Render` of the node: operands around the operator with one space on each side |
| CPrinting.Printer.VisitUnary | src/ast_printer.c:65-71 | `visit_expr_unary` writes `(`, the operator, the operand and `)` |
| CPrinting.Printer.VisitCall | src/ast_printer.c:73-83 | `visit_expr_call` writes the name, `(`, the arguments and `)` |
| CPrinting.Printer.VisitArguments | src/ast_printer.c:76-81 | the loop writes the arguments separated by single spaces |
| CPrinting.Printer.VisitStmtExpr | src/ast_printer.c:125-130 | an indented expression and a newline |
| CPrinting.Printer.VisitBlock | src/ast_printer.c:132-136 | the statements at the block's own depth |
| CPrinting.Printer.VisitIf | src/ast_printer.c:138-154 | `if`, condition, `then`, the then block one level deeper, the else part, and `end` at the if's depth |
| CPrinting.Printer.VisitElse | src/ast_printer.c:145-150 | the `else` line and else block are written exactly when the else block is set |
| CPrinting.Printer.VisitWhile | src/ast_printer.c:156-165 | `while`, condition, `do`, the body one level deeper and `end` |
| CPrinting.Printer.VisitParameters | src/ast_printer.c:171-176 | the parameters separated by single spaces |
| CPrinting.Printer.VisitRoutine | src/ast_printer.c:167-181 | `routine`, the name, the parameters, the body one level deeper and `end` |

## Left out

- Floating point. Python floats are kept as exact reals (`Interpreting.Value.RealV`) and float literals as their decimal digits, so no rounding is modelled. The same goes for C's `atof` and `double`.
- `Ast.NumberRepr`: a float is always written positionally, as its whole part, `.` and its fraction without trailing zeros. Python's `repr` of a float writes the shortest digits that round-trip, and uses exponent form below 1e-4 and from 1e16 up: the lexeme `0.00001` gives `<1e-05>` in Python and `<0.00001>` in the model, and `100000000000000000.0` gives `<1e+17>`. Neither shortest round-trip digits nor exponent form is modelled.
- `Interpreting.Arithmetic`: a power with a non-integral float exponent, and `%` on a str (Python's string formatting), give `Unsupported` instead of Python's result.
- Unicode: `\d`, `\w` and `str.isspace` are modelled on their ASCII members only. `repr` of a str escapes only ASCII control characters.
- `Tokens.Hash`: Python salts string hashes per process, so the hash of the lexeme is a parameter. Only the tuple hash that combines it is modelled.
- `SymbolTable.__repr__` (dictionary repr) is not modelled.
- The base class `AST`, whose `accept` and `__repr__` raise NotImplementedError, is not modelled. Only the nine concrete node kinds exist in `Ast.Node`, so no base node can be built.
- The cursor positions 1, 3, 4, 5, 7, 8, 10, 11, 12, 14, 18 on `1 +2* (3 -7) / 4.0` are not stated as a lemma. They follow from `Lexing.ScanOneSpelling` and the first-match lemmas, but unfolding the scan of that literal string exceeds the verifier's budget.
- The C tree holds pointers, struct copies in statement arrays and a `char` array for parameter pointers (src/parser.c:257-258, 293-294, 360-368). The model keeps the tree those allocations evidently intend, with sequences and `Option` (`CAst.CNode`). Memory, `realloc` and aliasing are not modelled.
- `Parsing.NumberLiteral`: only the spellings the scanner produces (`\d+(\.\d+)?`) are modelled. Python's `int()` and `float()` also accept surrounding whitespace, a sign, underscores between digits, exponents and `inf`/`nan` (for example `+5`, ` 5`, `1_0`, `1e3`, `inf`). Such lexemes can only reach `_primary` through tokens handed to `Parser(tokens=…)` directly, and the model rejects them with `InvalidNumber` where Python converts them. Lexemes of more than 4300 digits are not modelled either: Python's `int()` refuses them by default (`sys.int_info.default_max_str_digits`), so `_primary` falls back to `float()` and stores `inf`, where the model stores the exact int. Likewise `repr` of an int of more than 4300 digits raises ValueError in Python, which `Ast.NumberRepr` does not model.
- `CParsing.PrimaryAt`: `expr_primary` returns NULL when no expression starts at the cursor (src/parser.c:109-110). The model puts the node `Error("expected expression")` there instead. As written, the printer's `ast_error_precheck` then reads `ast->type` through that NULL pointer (src/ast_printer.c:192), so the C program crashes where the model writes `error: expected expression` to the error stream. The message `expr_primary` itself writes to standard error is not modelled.
- `CAst.CNode.Error`: src/ast_printer.c:194-195 handles an `AST_ERROR` node with an `error.message` field, but src/ast.h declares neither the enumerator nor the field, so the printer does not compile against that header. The model reads that case as an extra node kind `Error(message)`, the node the printer's check is evidently written for.
- `TokenNames`: src/token.c:6-32 and every `check`/`consume` in src/parser.c name the kinds `TOKEN_EOF`, `TOKEN_NUMBER`, …, but src/token.h declares `END_OF_FILE`, `NUMBER`, …, so these files do not compile as written. The model reads `TOKEN_X` as token.h's `X` with its value 0..26 (`TokenNames.EnumValue`). `TokenNames.UnknownOutsideEnumeration` rests on that reading; another header defining `TOKEN_X` with other values would move the keys and the "UNKNOWN" range.
- `CParsing.Step`: a loop that makes no progress is `Diverges` (it spins forever in C), and a dereference of a NULL parameter token is `Faults`. What an actual run does after such a point is not modelled.
- `CParsing.CParser`: the token count that `is_at_end` compares against (`num_tokens`, not a field of `struct parser` in src/parser.h) is the length of the token sequence.
- `CPrinting.Render`: a number prints as its lexeme, where the C code prints the `%g` rendering of `atof` of the lexeme.
- `CPrinting.Render`: a routine's name prints as the identifier's lexeme. The C code passes the name's token pointer to `%s` (src/ast_printer.c:170), which does not print the lexeme. When no identifier follows `routine`, `consume` returns NULL (src/parser.c:356) and that NULL becomes the name (src/parser.c:379); passing it to `%s` is undefined behaviour in C, where the model (`CPrinting.TitleText`) prints nothing.
- `CPrinting.Render`, `CPrinting.Printer.VisitElse`, `CPrinting.Printer.ErrorPrecheck` and `CPrinting.Printer.AstPrinter`: an if without `else` has its `else_` field unset (src/parser.c:317-325), and both `visit_stmt_if` (src/ast_printer.c:145) and `ast_error_precheck` (src/ast_printer.c:213-215) read it. The model reads the unset field as NULL: no else part is printed, and the printer runs the corrected check `CPrinting.FirstError`, which skips it. See the finding below.
- The C scanner (src/scanner.c and `scanner_scan`, declared in src/scanner.h but never defined), the command-line drivers (blast.py, main.py, src/main.c) and all standard input and output are not part of this model. The printer's two streams are the fields of `CPrinting.Printer`.

## Findings

| source | as written | input that shows it | evidently intended | confidence | as-written member | corrected member |
|---|---|---|---|---|---|---|
| src/ast_printer.c:213-215 | the check of an if statement also checks its else block, which `stmt_if` leaves unset when there is no `else`: the node is `malloc`ed and `else_` is assigned only after ELSE (src/parser.c:317-325). `visit_stmt_if` reads the same unset field at src/ast_printer.c:145 to decide whether to print an else part | reachable only by a caller of the static `stmt_if` or `stmt`, since `parser_parse` (src/parser.c:39-42) reads only an expression, `program` has no caller and `stmt` is called only from `stmt_block` (src/parser.c:291); for such a caller, `if x then end`, parsed by `stmt_if` into an if with no else block (CParseLaws.IfWithoutElseIsParsed) | `else_` is NULL when there is no `else`, both the check and `visit_stmt_if` skip it, and an error-free if without else finds no error | not executed | CPrinting.PrecheckReadsUnsetElse | CPrinting.FirstErrorIsFirstMessage |
