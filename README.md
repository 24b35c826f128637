# Recursive descent recogniser: a Dafny model

The system is a browser page for a small teaching language. It checks a program written in that language, for example:

```
program
  x = (a + 1) * 2 ;
  loop ( i = 0 : n ) if ( x >= 3 ) y = y % 2 ; end_if end_loop
end_program
```

It has two parts, and this project models both:

- **The lexer** (class `Lexer`). It walks a cursor over the text and counts lines as it goes. Each call of `nextToken` returns one token.
  - It works in one of two modes.
  - In *strict* mode, a bad word or an unknown character raises a `SyntaxError`.
  - In *colouring* mode, used to highlight the input, the same input becomes an `ERROR` token and comments become `COMMENT` tokens.
- **The parser** (class `Parser`). It is a recursive-descent recogniser with one token of lookahead, and it pulls strict tokens from the lexer on demand.
  - As it runs, it writes a trace to a console: `Next Token is T` for each new lookahead, and `Enter < rule >` / `Exit < rule >` around each grammar rule.
  - It raises a `SyntaxError` with the current line number at the first mismatch.

## How the model is organised

| module (file) | what it holds |
|---|---|
| `Tokens` (tokens.dfy) | The token types with their exact names, and the `Token` record. The two errors with the message text each one renders. `Result`/`Outcome` stand in for `throw`. |
| `Scanner` (scanner.dfy) | What one `nextToken(colouring)` call does, as pure functions of text, cursor and line: `Skip`, `ScanToken` and `Scan`. Also the strict token stream (`StreamFrom`), the colouring pass (`ColourAll`) and the error marking (`MarkError`). |
| `ScannerFacts` (scanner_facts.dfy) | What the lexer promises: word classification, the operator table, comments, line counting, progress, and the keyword-lookup defect (see Findings). |
| `ColouringFacts` (colouring_facts.dfy) | What the highlighter shows. Read back token by token, the colouring tokens spell the input without the whitespace between tokens, unless `==` or `=<` occurs outside a comment. |
| `Lexing` (lexer.dfy) | `class Lexer` with mutable `index` and `line` and the source's own loops. Every method is proved equal to the `Scanner` function it implements. |
| `Descent` (descent.dfy) | What each parser method does, as a function of the strict token stream and the lookahead position. The result is the outcome (normal end or the thrown error), the new position and the console lines written. |
| `Grammar` (grammar.dfy) | The language as parse trees, the token kinds each tree spells, and the console lines the parser writes while it reads a tree. |
| `DescentFacts`, `DescentSound` (descent_facts.dfy, descent_sound.dfy) | Completeness: each parsing function accepts every well-formed tree and writes exactly that tree's lines. Soundness: whatever it accepts is a well-formed tree. |
| `Parsing` (parser.dfy) | `class Parser` over a live `Lexer`, with a mutable lookahead and an append-only console. Every method is proved to do what the `Descent` function of the same name says. |
| `DescentErrors` (descent_errors.dfy) | The error side of `parseProgram`: where it stops on a stream that is not a program, and which error it throws there. |
| `Trace` (trace.dfy) | The shape of the console. On success, the `Enter`/`Exit` pairs of every rule except `statements` are balanced and properly nested. |
| `Session` (run.dfy) | The parsing half of the run button. It accepts exactly the programs of the grammar, and on success its console is those programs' lines, balanced. On failure it returns the thrown error; two whole inputs show which error and which message. |

### Source behaviour the model keeps

These behaviours are odd but are modelled as the code has them:

- **`==` and `=<` lose their second character.**
  - Those two branches of `#handleOperator` read `this.index`, which is not a field of the lexer. The read is `undefined`, so the lexeme is `=undefined` and the token type is `OTHER_OP`.
  - The cursor still moves past both characters.
  - As a result, the parser's `EQUAL` and `LESS-EQUAL` alternatives can never match, and `<=` is never combined.
  - The highlighter's tokens then no longer spell the input: on `a==b` their values read `a=undefinedb` (`ColouringFacts.EqualsBreaksRoundTrip`).
- **The newline that ends a comment is not counted in strict mode.** The character after a comment is stepped over without a line increment.
- **The cursor can overshoot.** After a trailing comment, the cursor can reach `length + 1`, and END-FILE still comes out.
- **A digit-started identifier reports the whole run.** The error value, or the `ERROR` token's value, is the whole run of letters and digits, not a prefix.
- **`Exit < statements >` is written once per statement.** `statements` writes one `Enter < statements >` but one `Exit < statements >` after each statement, and none for an empty body.
- **Stray block ends are skipped.** At the top level, `parseProgram` steps over a stray `END-LOOP` or `END-IF` and goes on parsing statements. `Grammar.Segment` models this.

## Model

| member | source | states |
|---|---|---|
| Tokens.TokenKind.Name | script.js:181-217 | Definition; no contract of its own. The type strings the source uses, such as `END-FILE`, `NOT-EQUAL` and `OTHER_OP`. |
| Tokens.Join | script.js:301 | Definition; no contract of its own. `expectedTypes.join(", ")`, where a single type prints as itself. |
| Tokens.Problem.Text | script.js:300-302 | Definition; no contract of its own. The three parser messages: the mismatch built here, the unexpected end (line 324) and the missing statement (line 365). |
| Tokens.SyntaxError.Text | script.js:243-245 | Definition; no contract of its own. The lexer message format here and the parser message format of line 312 with the decimal line number. `Session.MissingSemicolonRejected` and `Session.DigitStartedNameRejected` state two rendered messages in full. |
| Tokens.Decimal | script.js:245 | The line number in a message is a non-empty string of decimal digits with no leading zero. |
| Tokens.DecimalRoundTrip | script.js:312 | Reading the rendered line number back gives the number, so different lines give different messages. |
| Scanner.IsWhitespace | script.js:56 | Definition; no contract of its own. The characters `\s` matches. |
| Scanner.IsLetterOrDigit | script.js:83-85 | Definition; no contract of its own. `[a-zA-Z0-9_]`. |
| Scanner.IsOperatorChar | script.js:132-134 | Definition; no contract of its own. The thirteen operator characters. |
| Scanner.KeywordKind | script.js:181-193 | Definition; no contract of its own. The seven own entries of the keyword table. `ScannerFacts.KeywordSpelling` and `ScannerFacts.KeywordTableIsInverse` state that it is one-to-one. |
| Scanner.KeywordOrIdentifier | script.js:181-193 | Definition; no contract of its own. A keyword's type, or ID, with the word as value. This is the corrected lookup (see Findings). |
| Scanner.WordToken | script.js:88-117 | Definition; no contract of its own. `ScannerFacts.WordClassification` states its three cases. |
| Scanner.OperatorKind | script.js:195-217 | Definition; no contract of its own. `ScannerFacts.OperatorTableDomain` states its domain. |
| Scanner.UnknownToken | script.js:159-168 | Definition; no contract of its own. ERROR with the character in colouring mode, the "Unknown Token" lexer error otherwise. |
| Scanner.ScanToken | script.js:36-47 | Definition; no contract of its own. The token read at a cursor past whitespace and comments. `Scanner.ScanTokenShape` states its shape. |
| Scanner.Skip | script.js:49-81 | Definition; no contract of its own. `Scanner.SkipShape` and `ScannerFacts.StrictSkipCounts` state what it does. |
| Scanner.Scan | script.js:30-47 | Definition; no contract of its own. One `nextToken` call. `Scanner.ScanShape` states its shape. |
| Scanner.SkipWhitespace | script.js:56-68 | The whitespace loop never moves back and never lowers the line. It stops inside the input, at a non-whitespace character or at the end. A cursor already past the end is left alone. |
| Scanner.CommentEnd | script.js:175-177 | The comment loop stops inside the input, at a newline or at the end. |
| Scanner.WordEnd | script.js:94-108 | The identifier loop stops inside the input, at a character outside `[a-zA-Z0-9_]` or at the end. |
| Scanner.OperatorLexeme | script.js:136-157 | An operator takes one character, or two when the second one is inside the input. |
| Scanner.ScanTokenShape | script.js:36-47 | Past the whitespace, the line stays the same. END-FILE with a null value comes exactly at the end. Otherwise the cursor moves forward but stays inside the input. Colouring never fails, and failures are lexer errors on the current line. EQUAL, LESS-EQUAL and COMMENT never come out, and ERROR never does in strict mode. |
| Scanner.ScanAtEnd | script.js:61-63 | Whitespace that runs to the end gives END-FILE where the whitespace stopped. |
| Scanner.ScanColouringComment | script.js:70-76 | In colouring mode, a comment after the whitespace is a COMMENT token whose value is the marker and the rest of the line. |
| Scanner.ScanStrictComment | script.js:77-79 | In strict mode, a comment and the character after it are skipped and scanning starts again, with no line counted for that character. |
| Scanner.ScanAtToken | script.js:32-47 | When no comment follows the whitespace, `nextToken` is one token read where the whitespace stopped. |
| Scanner.SkipShape | script.js:49-81 | Skipping never moves back. A token starts at no comment and at most one past the end, or inside the input in colouring mode. A COMMENT comes only in colouring mode and lies inside the input. |
| Scanner.ScanShape | script.js:30-47 | Every `nextToken` call: cursor and line never go back. END-FILE is the null-valued token and comes only at the end. Any other token moves the cursor forward. Only strict mode throws, and only lexer errors. EQUAL and LESS-EQUAL never occur, and strict mode yields no COMMENT or ERROR. |
| Scanner.StreamFrom | script.js:267-274 | The strict tokens the parser pulls: one line number per token. END-FILE comes only last. Without a failure the stream ends in END-FILE. The only failures are lexer errors, and no COMMENT, ERROR, EQUAL or LESS-EQUAL appears. |
| Scanner.ColourAll | script.js:225-232 | The colouring pass never fails. It holds no END-FILE, and every token has a value. It reaches exactly the end of the input. |
| Scanner.MarkError | script.js:234-238 | With `hasError`, only the token at `parserIndex` changes, to ERROR with the same value. The length stays the same. The JavaScript TypeError (`None`) happens exactly when that index holds no token. |
| ScannerFacts.EndOfInputIsStable | script.js:22-24 | At or past the end, `nextToken` returns END-FILE with a null value and leaves cursor and line unchanged, in both modes. |
| ScannerFacts.EndFileRepeats | script.js:36-39 | After END-FILE, every further call returns END-FILE again and changes nothing. |
| ScannerFacts.BlankInput | script.js:49-81 | An input made only of whitespace and comments gives the single strict token END-FILE, with no failure. |
| ScannerFacts.SkipBlank | script.js:49-81 | Over whitespace and comments that run to the end, strict skipping stops at or past the end. |
| ScannerFacts.StreamStep | script.js:267-274 | A strict token other than END-FILE is the head of the stream, with its line, and the rest of the stream starts where that call left the lexer. |
| ScannerFacts.StreamStops | script.js:267-274 | A lexer error ends the stream at once: no more tokens, and that error as its failure. |
| ScannerFacts.SkipStopsAt | script.js:49-81 | At a character that is neither whitespace nor the start of a comment, skipping stops where it is. |
| ScannerFacts.SkipOneBlank | script.js:56-68 | One blank other than a newline before such a character is stepped over, and the line stays. |
| ScannerFacts.SkippedAreWhitespace | script.js:56-68 | Every character the whitespace loop steps over is whitespace. |
| ScannerFacts.CommentHasNoNewline | script.js:175-177 | A comment's text holds no newline. |
| ScannerFacts.WordIsLetters | script.js:94-108 | A word run consists of `[a-zA-Z0-9_]` only. |
| ScannerFacts.WhitespaceCountsNewlines | script.js:57-59 | The line counter grows by exactly the number of newlines the whitespace loop steps over. |
| ScannerFacts.ColouringCountsEveryNewline | script.js:30-47 | In colouring mode, the line counter after a call is the start line plus the newlines the cursor passed. |
| ScannerFacts.ColouringStaysOnLine | script.js:36-47 | In colouring mode, the token after the whitespace lies on one line. |
| ScannerFacts.CommentStaysOnLine | script.js:170-179 | A COMMENT token lies on one line. |
| ScannerFacts.TokenStaysOnLine | script.js:36-47 | A colouring token that starts at a non-space character lies on one line and leaves the line counter alone. |
| ScannerFacts.StrictCountsAtMostEveryNewline | script.js:49-81 | In strict mode, the line counter grows by at most the newlines passed. |
| ScannerFacts.StrictSkipCounts | script.js:70-79 | Strict skipping of whitespace and comments always reaches a token. Its line count is bounded by the newlines passed. |
| ScannerFacts.CommentNewlineNotCounted | script.js:77 | On `//\nx` the cursor passes one newline, yet the identifier `x` is reported on line 1. |
| ScannerFacts.TrailingCommentOvershoots | script.js:77 | On `//`, strict mode returns END-FILE with the cursor at length + 1. |
| ScannerFacts.ScanWord | script.js:88-117 | At any cursor where skipping stops, a maximal word run is read whole, in both modes, with the line unchanged. |
| ScannerFacts.WordClassification | script.js:88-126 | All digits is NUM. A digit then a letter or `_` is the ERROR token or the lexer error with the whole run. Otherwise it is a keyword or ID, with the run as value. |
| ScannerFacts.KeywordSpelling | script.js:182-190 | Each of the seven keyword types has a spelling that the keyword table maps back to it. |
| ScannerFacts.KeywordTableIsInverse | script.js:182-192 | A word the table maps to a type is exactly that keyword's spelling, so the table is one-to-one. |
| ScannerFacts.KeywordTypeAsWrittenDiffers | script.js:192 | The table lookup as written agrees with the intended keyword-or-ID result on exactly the words that are not `Object.prototype` members. |
| ScannerFacts.ConstructorIsNotAnId | script.js:192 | As written, `constructor` gets an inherited member as its type, while the intended lexer reads it as an ID. |
| ScannerFacts.ScanKeyword | script.js:181-193 | At any cursor where skipping stops, a keyword followed by a non-word character is that keyword's token in both modes. |
| ScannerFacts.ScanIdentifier | script.js:181-193 | At any cursor where skipping stops, a word that starts with a letter or `_` and is not a keyword is an ID token with the word as value. |
| ScannerFacts.DigitStartedIdentifier | script.js:104-130 | In strict mode, `9abc` raises the lexer error "Identifiers cannot start with a number but found" on line 1, with all of `9abc` as value. In colouring mode it is ERROR `9abc`. Both consume the whole run. |
| ScannerFacts.OperatorTableDomain | script.js:195-217 | The table gives a type other than OTHER_OP exactly for its seventeen entries. |
| ScannerFacts.ScanSingleOperator | script.js:136-157 | At any cursor where skipping stops, a lone operator character maps through the table with a one-character value. |
| ScannerFacts.ScanOperatorStart | script.js:136-157 | An operator character at the cursor gives the token of the lexeme `#handleOperator` assembles, and the cursor lands after that lexeme. |
| ScannerFacts.ScanOperatorPair | script.js:136-157 | At any cursor where skipping stops, given any two characters: `!=` and `>=` give two-character tokens, `==` and `=<` give OTHER_OP `=undefined` over two characters, and anything else is a one-character token. |
| ScannerFacts.ScanTwoCharacterOperators | script.js:140-154 | At any cursor where skipping stops, `!=` is NOT-EQUAL and `>=` is GREATER-EQUAL. `==` and `=<` are OTHER_OP `=undefined`. `<=` is LESS followed by something else. |
| ScannerFacts.ColouringComment | script.js:70-76 | A `//` at the cursor in colouring mode is a COMMENT token up to the next newline or the end. |
| ScannerFacts.StrictSkipsComment | script.js:77-79 | A `//` at the cursor in strict mode is skipped together with the character after it. |
| ScannerFacts.ColouringTokenIsItsText | script.js:30-47 | In colouring mode, the skipped text is whitespace and END-FILE comes exactly at the end. Every other token's value is the text it covers, except `==` and `=<`. |
| ScannerFacts.CommentIsItsText | script.js:170-179 | A COMMENT token's value is exactly the text it covers. |
| ColouringFacts.TokenIsVisible | script.js:30-47 | On plain input, a colouring token after the whitespace has the text it consumed as value, and the rest of the input stays plain. |
| ColouringFacts.WordIsVisible | script.js:88-117 | A word token's value is the run it consumed. |
| ColouringFacts.OperatorIsVisible | script.js:136-157 | On plain input, an operator token's value is the one or two characters it consumed. |
| ColouringFacts.UnknownIsVisible | script.js:159-168 | An ERROR token for an unknown character has that character as value. |
| ColouringFacts.ColourRoundTrip | script.js:225-232 | Round trip: when no `==` or `=<` occurs outside a comment, the values of all colouring tokens, joined, are the input without the whitespace between tokens, comments kept whole. |
| ColouringFacts.EqualsBreaksRoundTrip | script.js:145-147 | On `a==b` the tokens' values spell `a=undefinedb`, not the input. |
| Lexing.WordTokenCases | script.js:111-116 | The three branches of `#handleLetterOrDigit`, each stated on its own. |
| Lexing.Lexer.constructor | script.js:14-20 | A new lexer stands at index 0 on line 1. |
| Lexing.Lexer.NextToken | script.js:30-47 | The token and the new cursor and line are exactly one `Scanner.Scan` step from the old ones, and the lexer stays valid. |
| Lexing.Lexer.SkipWhitespaceAndComments | script.js:49-81 | Either it returns the `Scan` result of the whole call (END-FILE, a COMMENT token, or the recursive strict call), or it leaves the cursor where whitespace skipping stops and no comment starts there. |
| Lexing.Lexer.HandleLetterOrDigit | script.js:88-117 | The cursor moves to the end of the word run, the line stays, and the result is `WordToken` of the run. |
| Lexing.Lexer.ReadRun | script.js:94-108 | The loop collects exactly the maximal run. Its flag is raised exactly when the run starts with a digit and a letter or `_` follows. |
| Lexing.Lexer.HandleOperator | script.js:136-157 | The token is the table type of the assembled lexeme with that lexeme as value, and the cursor lands after the characters consumed. |
| Lexing.Lexer.HandleUnknownToken | script.js:159-168 | The cursor moves one character. The result is ERROR with that character, or the "Unknown Token" lexer error. |
| Lexing.Lexer.HandleComment | script.js:170-179 | The cursor moves to the end of the comment, and the value is `//` plus the rest of the line. |
| Lexing.Lexer.ColourInputTokenizer | script.js:220-241 | The result is the error marking of the colouring pass, and the cursor ends where that pass ends. |
| Lexing.Lexer.ColourToEnd | script.js:225-232 | The loop collects exactly the colouring pass's tokens and stops at the end of the input. |
| Parsing.StrictFrom | script.js:267-274 | Each strict read from where the lexer stood after one token gives the next token of the stream, or the error that ends the stream. |
| Descent.Line.Text | script.js:283-285 | Definition; no contract of its own. The console line formats: `Next Token is T` here, `Enter < rule >` and `Exit < rule >` as on lines 320 and 335. |
| Descent.Check | script.js:276-281 | Definition; no contract of its own. The lookahead's type is one of the expected types. `Parsing.Parser.CheckToken` is proved to compute it. |
| Descent.Announce | script.js:270-285 | Definition; no contract of its own. The `Next Token is T` line, held back for END and END-FILE. |
| Descent.ErrorAt | script.js:309-313 | Definition; no contract of its own. The parser error at the line the lexer has reached with that lookahead. |
| Descent.Advance | script.js:267-274 | Advancing moves the lookahead one token forward, or fails with a lexer error and stays put. |
| Descent.Expect | script.js:288-307 | A reported match never moves back. A successful advancing match moves exactly one token. |
| Descent.ParseVar | script.js:454-459 | On success, the lookahead has moved exactly one token. |
| Descent.ParseTerm | script.js:443-452 | On success, at least one token is consumed, and the lookahead stays inside the stream. |
| Descent.ParseExpression | script.js:431-441 | On success, at least one token is consumed, and the lookahead stays inside the stream. |
| Descent.MoreTerms | script.js:436-438 | The operator loop never moves back and stays inside the stream. |
| Descent.ParseLogic | script.js:420-429 | The lookahead never moves back and stays inside the stream. |
| Descent.ParseAssign | script.js:371-381 | On success, at least one token is consumed. |
| Descent.ParseLoop | script.js:383-402 | On success, at least one token is consumed. |
| Descent.LoopBody | script.js:386-400 | On success, at least one token is consumed. |
| Descent.Block | script.js:396-400 | The lookahead never moves back and stays inside the stream. |
| Descent.ParseIf | script.js:404-417 | On success, at least one token is consumed. |
| Descent.IfBody | script.js:407-416 | On success, at least one token is consumed. |
| Descent.ParseStatement | script.js:349-369 | On success, at least one token is consumed. |
| Descent.ParseStatements | script.js:338-347 | The lookahead never moves back and stays inside the stream. |
| Descent.MoreStatements | script.js:342-346 | On success, the lookahead is one of END-LOOP, END-IF, END or END-FILE. |
| Descent.ProgramLoop | script.js:321-329 | On success, the lookahead is END. |
| Descent.ParseProgram | script.js:315-336 | The lookahead never moves back and stays inside the stream. |
| DescentFacts.VarComplete | script.js:454-459 | An ID or NUM is accepted, with exactly the `var` lines. |
| DescentFacts.TermComplete | script.js:443-452 | Every well-formed term spelled at the lookahead is accepted, ending right after it, with exactly that term's lines. |
| DescentFacts.ExprComplete | script.js:431-441 | Every well-formed expression not followed by an arithmetic operator is accepted, ending right after it, with its lines. |
| DescentFacts.TailComplete | script.js:436-438 | The operator loop reads every well-formed operator–term tail, with its lines. |
| DescentFacts.LogicComplete | script.js:420-429 | ID, a comparison and a var are accepted, with the `logic` lines. |
| DescentFacts.StmtComplete | script.js:349-369 | Every well-formed statement is accepted, ending right after it, with its lines. |
| DescentFacts.AssignComplete | script.js:371-381 | `ID = expression ;` is accepted, with the `assign` lines. |
| DescentFacts.LoopComplete | script.js:383-402 | A well-formed loop header, body and END-LOOP is accepted, with the `loop` lines. |
| DescentFacts.BlockComplete | script.js:396-400 | Given the statements' result, the block tail is the closing token, the statements and the end token, in that order. |
| DescentFacts.IfComplete | script.js:404-417 | A well-formed if header, body and END-IF is accepted, with the `if` lines. |
| DescentFacts.StatementsComplete | script.js:338-347 | Every well-formed body followed by a block end is accepted, with one `Enter < statements >` and one `Exit < statements >` per statement. |
| DescentFacts.BodyComplete | script.js:342-346 | The statements loop reads every well-formed body up to a block end. |
| DescentFacts.SegmentsComplete | script.js:321-329 | The top-level loop reads every well-formed run of segments up to END. |
| DescentFacts.ProgramComplete | script.js:315-336 | Every program of the grammar that the stream spells is accepted. The stream is exactly that program, and the console is exactly its lines. |
| DescentFacts.SegmentsRunOut | script.js:321-325 | When END-FILE follows well-formed segments, the top-level loop reads them all and then throws "End of program reached unexpectedly." with END-FILE's line. |
| DescentErrors.ProgramRunsOut | script.js:315-329 | A program whose END is missing fails at the final END-FILE with the unexpected-end error. Its console is START's announcement, `Enter < program >` and the lines of every segment. |
| DescentErrors.LoopFails | script.js:315-321 | START is matched in place, so a failing top-level loop is the failure of `parseProgram`, after the two opening lines. |
| DescentErrors.NoStatementHere | script.js:338-366 | A lookahead that neither ends a block nor starts a statement makes `#parseStatement` throw the missing-statement error naming that type, after `Enter < statements >` and `Enter < statement >`. |
| DescentErrors.AssignMissesSemicolon | script.js:371-381 | `ID = NUM` followed by END fails where SEMI is wanted. |
| DescentErrors.StatementsMissSemicolon | script.js:338-369 | The statement list that starts with that assignment fails with the same error. |
| DescentErrors.MissingSemicolon | script.js:315-381 | START, ID, ASSIGN, NUM, END: `parseProgram` throws the mismatch error for SEMI against END, with END's line. |
| DescentErrors.LexErrorAfterStart | script.js:321-328 | When the lexer fails right after START, `parseProgram` throws that lexer error. |
| DescentSound.TermSound | script.js:443-452 | An accepted term is a well-formed term spelled where it began, ending where the lookahead ends. |
| DescentSound.ExprSound | script.js:431-441 | An accepted expression is a well-formed expression spelled at its start. |
| DescentSound.TailSound | script.js:436-438 | What the operator loop consumes is a well-formed tail. |
| DescentSound.LogicSound | script.js:420-429 | An accepted logic is a well-formed comparison. |
| DescentSound.StmtSound | script.js:349-369 | An accepted statement is a well-formed statement spelled at its start. |
| DescentSound.AssignSound | script.js:371-381 | An accepted assignment is a well-formed assignment. |
| DescentSound.LoopSound | script.js:383-402 | An accepted loop is a well-formed loop. |
| DescentSound.IfSound | script.js:404-417 | An accepted if is a well-formed if. |
| DescentSound.StatementsSound | script.js:338-347 | Accepted statements are a well-formed body. |
| DescentSound.BodySound | script.js:342-346 | What the statements loop consumes is a well-formed body. |
| DescentSound.SegmentsSound | script.js:321-329 | What the top-level loop consumes is well-formed segments, the first one opened by the token it started on. |
| DescentSound.ProgramSound | script.js:315-336 | An accepted stream spells a program of the grammar. |
| DescentSound.ProgramAccepted | script.js:315-336 | `parseProgram` succeeds if and only if the stream spells some program of the grammar. |
| DescentSound.ProgramParsed | script.js:315-336 | On success, the console is exactly the lines of the program read, and END-FILE is the last token. |
| Parsing.Parser.New | script.js:258-265 | A new parser holds the first strict token as lookahead, or the constructor throws the lexer error that ends an empty stream. |
| Parsing.Parser.OutputNextTokenToConsole | script.js:283-285 | Appends one `Next Token is T` line for the lookahead. |
| Parsing.Parser.AdvanceToken | script.js:267-274 | Does what `Descent.Advance` says: the next strict token, announced unless END or END-FILE. |
| Parsing.Parser.CheckToken | script.js:276-281 | True exactly when the lookahead's type is one of the expected types. It reads state and changes nothing. |
| Parsing.Parser.ParseErrorOf | script.js:309-313 | The parser error carries the line the lexer has reached with this lookahead. |
| Parsing.Parser.Match | script.js:288-307 | An unreported mismatch returns false and changes nothing. Otherwise it does what `Descent.Expect` says: true, or the mismatch error. |
| Parsing.Parser.Require | script.js:288-307 | `#match` with its defaults does what `Descent.Expect` says. |
| Parsing.Parser.ParseVar | script.js:454-459 | Does what `Descent.ParseVar` says: outcome, lookahead and console lines. |
| Parsing.Parser.ParseTerm | script.js:443-452 | Does what `Descent.ParseTerm` says. |
| Parsing.Parser.ParseExpression | script.js:431-441 | Does what `Descent.ParseExpression` says. |
| Parsing.Parser.MoreTerms | script.js:436-438 | The loop does what `Descent.MoreTerms` says. |
| Parsing.Parser.ParseLogic | script.js:420-429 | Does what `Descent.ParseLogic` says. |
| Parsing.Parser.ParseAssign | script.js:371-381 | Does what `Descent.ParseAssign` says. |
| Parsing.Parser.ParseLoop | script.js:383-402 | Does what `Descent.ParseLoop` says. |
| Parsing.Parser.ParseIf | script.js:404-417 | Does what `Descent.ParseIf` says. |
| Parsing.Parser.CloseBlock | script.js:396-400 | The shared block tail does what `Descent.Block` says. |
| Parsing.Parser.ParseStatement | script.js:349-369 | Does what `Descent.ParseStatement` says. |
| Parsing.Parser.ParseStatements | script.js:338-347 | Does what `Descent.ParseStatements` says. |
| Parsing.Parser.Segments | script.js:321-329 | The top-level loop does what `Descent.ProgramLoop` says. |
| Parsing.Parser.ParseProgram | script.js:315-336 | Does what `Descent.ParseProgram` says. |
| Trace.CloseAppend | script.js:338-459 | Checking the nesting of two runs of console lines one after the other is checking the first, then the second from where the first left off. |
| Trace.NestsNested | script.js:371-381 | `Enter < rule >`, lines that nest, and `Exit < rule >` together nest. |
| Trace.StatementsMarksNest | script.js:340-345 | The `statements` lines stand outside the pairing. |
| Trace.AnnounceNests | script.js:270-273 | `Next Token is T` lines hold no pair. |
| Trace.VarNests | script.js:454-459 | The `var` lines nest. |
| Trace.TermNests | script.js:443-452 | The lines of every well-formed term nest. |
| Trace.ExprNests | script.js:431-441 | The lines of every well-formed expression nest. |
| Trace.TailNests | script.js:436-438 | The lines of the operator loop nest. |
| Trace.LogicNests | script.js:420-429 | The `logic` lines nest. |
| Trace.StmtNests | script.js:349-369 | The lines of every well-formed statement nest. |
| Trace.AssignNests | script.js:371-381 | The `assign` lines nest. |
| Trace.LoopNests | script.js:383-402 | The `loop` lines nest. |
| Trace.IfNests | script.js:404-417 | The `if` lines nest. |
| Trace.StatementsNests | script.js:338-347 | The lines of every well-formed body nest. |
| Trace.SegmentsNests | script.js:321-329 | The lines of the top-level loop nest. |
| Trace.ProgramNests | script.js:315-336 | The lines of every program nest. |
| Trace.SuccessIsBalanced | script.js:315-459 | When `parseProgram` succeeds, every `Enter < X >` it wrote is closed by its own `Exit < X >`, innermost first. |
| Session.Run | script.js:484-488 | `new Lexer`, `new Parser` and `parseProgram` succeed if and only if the input's strict tokens spell a program of the grammar. On success, the console is exactly that program's lines, and they are balanced. The outcome is always `Session.Processing`: an empty stream fails with the lexer's error, and otherwise the result is the error `parseProgram` throws. |
| Session.MissingSemicolonRejected | script.js:288-312 | `program x = 5 end_program` fails with the parser error on line 1: "Parser Error: (Line: 1) Expected token type SEMI but found END". |
| Session.DigitStartedNameRejected | script.js:104-130 | `program 9abc = 1 ; end_program` fails with the lexer error on line 1: "Lexer Error (Line: 1) Identifiers cannot start with a number but found: 9abc". |

## Left out

- The DOM and page glue is not part of this model: event handlers, placeholders, line numbers, HTML extraction, export, and the `try`/`catch` that prints `ERROR: Processing stopped due to …` (script.js:462-662). `Session.Run` returns the thrown error as a `Fail` outcome instead.
- The side effects of the error paths and of console output are not modelled: `colorizeInputText`, `colorizeConsoleText`, and `getColorByTokenType`. These only produce presentation HTML. The console is modelled as a sequence of `Line` values, whose `Text()` gives the exact string each call appends.
- JavaScript strings are UTF-16, while the model uses `seq<char>`. A character outside the Basic Multilingual Plane counts once here and twice in the source.
- The regular expressions are replaced by character predicates. `\s` is the fixed whitespace set of the ECMAScript standard.
- `Session.Run`: `new Parser(lexer)` runs outside the `try` block, so a lexer error on the very first token escapes the handler in the source. The model returns it as `Fail` all the same.
- Session.Run: uses the corrected keyword lookup. On the twelve `Object.prototype` member names (`constructor`, `toString`, `__proto__` and the rest of `ScannerFacts.PrototypeMembers`), the model's stream has an ID where the source's has an inherited member as type, so the source rejects a program that the model accepts (script.js:192, 364). See Findings.
- ScannerFacts.WordClassification: states the corrected lookup. On the twelve `Object.prototype` member names it gives ID, while the source gives the inherited member as the token type (script.js:192). `ScannerFacts.KeywordTypeAsWrittenDiffers` states the lookup as written.
- ScannerFacts.ScanIdentifier: states the corrected lookup. On the twelve `Object.prototype` member names it gives ID, while the source's token has an inherited member as type, and `#parseStatement` then rejects it (script.js:192, 364).
- Parsing.Parser.Match: requires that an advancing match not list END-FILE. The source never makes such a call, because every match on END-FILE passes `advanceToken = false`.
- Parsing.Parser.ParseErrorOf: states the error value, not its rendered message. The message is `Tokens.SyntaxError.Text`, which has no contract of its own.
- Trace: the rule that `statements` writes one `Exit` per statement is carried by `Grammar.StatementLines`, with the equalities of `DescentFacts`. No separate counting lemma states it.
- Parsing: a parser is not used after it has thrown. What a method leaves behind after a `Fail` is stated only as far as the outcome and the console go.

## Findings

| source | as written | input that shows it | evidently intended | confidence | as-written member | corrected member |
|---|---|---|---|---|---|---|
| script.js:192 | `keywords[value]` looks the word up in a plain object literal, so words such as `constructor`, `toString` or `__proto__` find the inherited `Object.prototype` member, which is truthy and becomes the token type | `program constructor = 1 ; end_program`: the first statement's token type is a function, not ID, so `#parseStatement` throws | only the seven own keys are keywords; every other word is an ID | not executed | ScannerFacts.KeywordTypeAsWrittenDiffers | ScannerFacts.KeywordTableIsInverse |

The rest of the model uses the corrected lookup (`Scanner.KeywordKind`, `Scanner.KeywordOrIdentifier`). `ScannerFacts.ConstructorIsNotAnId` shows the input above scanned both ways.
