/**
 * The parsing half of the run button: a lexer over the input, a parser
 * over the lexer, and `parseProgram`.  What it accepts is exactly the
 * programs of the grammar, and what it writes is their console lines,
 * whose `Enter`/`Exit` pairs are balanced.
 */
module Session {
  import opened Tokens
  import opened Scanner
  import opened Descent
  import opened Grammar
  import opened DescentSound
  import opened Lexing
  import opened Parsing
  import opened Trace
  import opened ScannerFacts
  import opened DescentErrors

  /** No program is spelled by a stream with no token. */
  lemma {:induction false} NothingSpelled(f: TokenStream)
    requires f.tokens == []
    ensures !exists p :: ProgramOk(p) && Spells(f, 0, ProgramYield(p))
  {
    forall p | ProgramOk(p)
      ensures !Spells(f, 0, ProgramYield(p))
    {
      assert ProgramYield(p) != [];
    }
  }

  /**
   * What parsing `input` comes to: the lexer error `new Parser` throws when
   * not even the first token can be read, or else `parseProgram` over the
   * token stream, from its first token.
   */
  function Processing(input: string): Parsed {
    var f := StreamFrom(input, 0, 1);
    if f.tokens == [] then Parsed(Fail(f.failure.get), 0, []) else ParseProgram(f, 0)
  }

  /**
   * `new Lexer(input)`, `new Parser(lexer)`, `parser.parseProgram()`:
   * `Fail` is the error either of the last two throws, `console` the lines
   * the parser appended.
   */
  method Run(input: string) returns (o: Outcome, console: seq<Line>)
    ensures o == Processing(input).outcome && console == Processing(input).lines
    ensures o.Pass? <==> exists p :: ProgramOk(p) && Spells(StreamFrom(input, 0, 1), 0, ProgramYield(p))
    ensures o.Pass? ==> exists p ::
      && ProgramOk(p) && Spells(StreamFrom(input, 0, 1), 0, ProgramYield(p))
      && |SegmentsYield(p.segments)| + 2 == |StreamFrom(input, 0, 1).tokens|
      && console == ProgramLines(StreamFrom(input, 0, 1), p)
    ensures o.Pass? ==> Balanced(console)
  {
    ghost var f := StreamFrom(input, 0, 1);
    var lexer := new Lexer(input);
    var r := Parser.New(lexer);
    if r.Err? {
      o, console := Fail(r.error), [];
      NothingSpelled(f);
      return;
    }
    var parser := r.value;
    o := parser.ParseProgram();
    console := parser.console;
    ProgramAccepted(f);
    if o.Pass? {
      var p := ProgramParsed(f);
      assert console == ProgramLines(f, p);
      ProgramNests(f, p);
      NestsIsBalanced(console);
    }
  }

  // ----- Two rejected inputs -----

  /** The scans of `program x = 5 end_program`, all on line 1. */
  lemma MissingSemicolonScans(input: string)
    requires input == "program x = 5 end_program"
    ensures Scan(input, 0, 1, false) == Scanned(Ok(Token(Start, Some("program"))), 7, 1)
    ensures Scan(input, 7, 1, false) == Scanned(Ok(Token(Id, Some("x"))), 9, 1)
    ensures Scan(input, 9, 1, false) == Scanned(Ok(Token(Assign, Some("="))), 11, 1)
    ensures Scan(input, 11, 1, false) == Scanned(Ok(Token(Num, Some("5"))), 13, 1)
    ensures Scan(input, 13, 1, false) == Scanned(Ok(Token(End, Some("end_program"))), 25, 1)
    ensures Scan(input, 25, 1, false) == Scanned(Ok(EndOfInput), 25, 1)
  {
    MissingSemicolonScan0(input);
    MissingSemicolonScan7(input);
    MissingSemicolonScan9(input);
    MissingSemicolonScan11(input);
    MissingSemicolonScan13(input);
    EndOfInputIsStable(input, 25, 1, false);
  }

  lemma MissingSemicolonScan0(input: string)
    requires input == "program x = 5 end_program"
    ensures Scan(input, 0, 1, false) == Scanned(Ok(Token(Start, Some("program"))), 7, 1)
  {
    SkipStopsAt(input, 0, 1, false);
    assert input[0..7] == KeywordSpelling(Start);
    ScanKeyword(Start, input, 0, 1, false, Cursor(0, 1));
  }
  lemma MissingSemicolonScan7(input: string)
    requires input == "program x = 5 end_program"
    ensures Scan(input, 7, 1, false) == Scanned(Ok(Token(Id, Some("x"))), 9, 1)
  {
    assert input[7] == ' ' && input[8] == 'x' && input[9] == ' ';
    SkipOneBlank(input, 7, 1, false);
    assert input[8..9] == "x" && IsLetterOrUnderscore('x');
    assert KeywordKind("x").None?;
    ScanIdentifier(input, 7, 1, false, Cursor(8, 1), "x");
  }
  lemma MissingSemicolonScan9(input: string)
    requires input == "program x = 5 end_program"
    ensures Scan(input, 9, 1, false) == Scanned(Ok(Token(Assign, Some("="))), 11, 1)
  {
    assert input[9] == ' ' && input[10] == '=' && input[11] == ' ';
    SkipOneBlank(input, 9, 1, false);
    ScanSingleOperator('=', input, 9, 1, false, Cursor(10, 1));
  }
  lemma MissingSemicolonScan11(input: string)
    requires input == "program x = 5 end_program"
    ensures Scan(input, 11, 1, false) == Scanned(Ok(Token(Num, Some("5"))), 13, 1)
  {
    assert input[11] == ' ' && input[12] == '5' && input[13] == ' ';
    SkipOneBlank(input, 11, 1, false);
    assert input[12..13] == "5" && AllDigits("5");
    ScanWord(input, 11, 1, false, Cursor(12, 1), "5");
  }
  lemma MissingSemicolonScan13(input: string)
    requires input == "program x = 5 end_program"
    ensures Scan(input, 13, 1, false) == Scanned(Ok(Token(End, Some("end_program"))), 25, 1)
  {
    MissingSemicolonSkip13(input);
    assert input[14..25] == KeywordSpelling(End);
    assert WordAt(input, 14, KeywordSpelling(End));
    ScanKeyword(End, input, 13, 1, false, Cursor(14, 1));
  }

  lemma MissingSemicolonSkip13(input: string)
    requires input == "program x = 5 end_program"
    ensures Skip(input, 13, 1, false) == AtToken(Cursor(14, 1))
  {
    assert input[13] == ' ' && input[14] == 'e' && input[15] == 'n';
    SkipOneBlank(input, 13, 1, false);
  }

  /** The token stream those scans make. */
  lemma MissingSemicolonTokens(input: string)
    requires |input| == 25
    requires Scan(input, 0, 1, false) == Scanned(Ok(Token(Start, Some("program"))), 7, 1)
    requires Scan(input, 7, 1, false) == Scanned(Ok(Token(Id, Some("x"))), 9, 1)
    requires Scan(input, 9, 1, false) == Scanned(Ok(Token(Assign, Some("="))), 11, 1)
    requires Scan(input, 11, 1, false) == Scanned(Ok(Token(Num, Some("5"))), 13, 1)
    requires Scan(input, 13, 1, false) == Scanned(Ok(Token(End, Some("end_program"))), 25, 1)
    requires Scan(input, 25, 1, false) == Scanned(Ok(EndOfInput), 25, 1)
    ensures var f := StreamFrom(input, 0, 1);
      && |f.tokens| == 6 && f.lines[4] == 1
      && f.tokens[0].kind == Start && f.tokens[1].kind == Id && f.tokens[2].kind == Assign
      && f.tokens[3].kind == Num && f.tokens[4].kind == End
  {
    MissingSemicolonTail(input);
    StreamStep(input, 7, 1, Token(Id, Some("x")), 9, 1);
    StreamStep(input, 0, 1, Token(Start, Some("program")), 7, 1);
  }

  lemma MissingSemicolonTail(input: string)
    requires |input| == 25
    requires Scan(input, 9, 1, false) == Scanned(Ok(Token(Assign, Some("="))), 11, 1)
    requires Scan(input, 11, 1, false) == Scanned(Ok(Token(Num, Some("5"))), 13, 1)
    requires Scan(input, 13, 1, false) == Scanned(Ok(Token(End, Some("end_program"))), 25, 1)
    requires Scan(input, 25, 1, false) == Scanned(Ok(EndOfInput), 25, 1)
    ensures var t := StreamFrom(input, 9, 1);
      && |t.tokens| == 4 && t.lines[2] == 1
      && t.tokens[0].kind == Assign && t.tokens[1].kind == Num && t.tokens[2].kind == End
  {
    StreamStep(input, 13, 1, Token(End, Some("end_program")), 25, 1);
    StreamStep(input, 11, 1, Token(Num, Some("5")), 13, 1);
    StreamStep(input, 9, 1, Token(Assign, Some("=")), 11, 1);
  }

  /** `program x = 5 end_program`: `;` is missing, and END is found in its place on line 1. */
  lemma MissingSemicolonRejected(input: string)
    requires input == "program x = 5 end_program"
    ensures Processing(input).outcome == Fail(ParseError(1, Mismatch([Semi], End)))
    ensures Processing(input).outcome.error.Text()
      == "Parser Error: (Line: 1) " + "Expected token type SEMI but found END"
  {
    MissingSemicolonScans(input);
    MissingSemicolonTokens(input);
    MissingSemicolon(StreamFrom(input, 0, 1));
    MissingSemicolonText();
  }

  lemma MissingSemicolonText()
    ensures ParseError(1, Mismatch([Semi], End)).Text()
      == "Parser Error: (Line: 1) " + "Expected token type SEMI but found END"
  {
    assert Decimal(1) == "1";
    assert "Parser Error: (Line: " + "1" + ") " == "Parser Error: (Line: 1) ";
    MismatchText();
  }

  lemma MismatchText()
    ensures Mismatch([Semi], End).Text() == "Expected token type SEMI but found END"
  {
    assert Join([Semi]) == "SEMI";
  }

  /** The scans of `program 9abc = 1 ; end_program` up to the lexer error. */
  lemma DigitStartedNameScan0(input: string)
    requires input == "program 9abc = 1 ; end_program"
    ensures Scan(input, 0, 1, false) == Scanned(Ok(Token(Start, Some("program"))), 7, 1)
  {
    SkipStopsAt(input, 0, 1, false);
    assert input[0..7] == KeywordSpelling(Start);
    ScanKeyword(Start, input, 0, 1, false, Cursor(0, 1));
  }

  lemma DigitStartedNameScan7(input: string)
    requires input == "program 9abc = 1 ; end_program"
    ensures Scan(input, 7, 1, false) == Scanned(Err(LexError(1, IdStartsWithNumMessage, "9abc")), 12, 1)
  {
    assert input[7] == ' ' && input[8] == '9' && input[9] == 'a' && input[12] == ' ';
    SkipOneBlank(input, 7, 1, false);
    assert input[8..12] == "9abc";
    ScanWord(input, 7, 1, false, Cursor(8, 1), "9abc");
    DigitStartedWord();
  }

  lemma DigitStartedWord()
    ensures WordToken("9abc", 1, false) == Err(LexError(1, IdStartsWithNumMessage, "9abc"))
  {
    assert IsWord("9abc") && !IsDigit("9abc"[1]);
    WordClassification("9abc", 1, false);
  }

  /** `program 9abc = 1 ; end_program`: the lexer error for `9abc`, on line 1. */
  lemma DigitStartedNameRejected(input: string)
    requires input == "program 9abc = 1 ; end_program"
    ensures Processing(input).outcome == Fail(LexError(1, IdStartsWithNumMessage, "9abc"))
    ensures Processing(input).outcome.error.Text()
      == "Lexer Error (Line: 1) " + "Identifiers cannot start with a number but found" + ": 9abc"
  {
    var e := LexError(1, IdStartsWithNumMessage, "9abc");
    DigitStartedNameScan0(input);
    DigitStartedNameScan7(input);
    StreamStops(input, 7, 1, e, 12, 1);
    StreamStep(input, 0, 1, Token(Start, Some("program")), 7, 1);
    LexErrorAfterStart(StreamFrom(input, 0, 1));
    DigitStartedNameText();
  }

  lemma DigitStartedNameText()
    ensures LexError(1, IdStartsWithNumMessage, "9abc").Text()
      == "Lexer Error (Line: 1) " + "Identifiers cannot start with a number but found" + ": 9abc"
  {
    assert Decimal(1) == "1";
    assert "Lexer Error (Line: " + "1" + ") " == "Lexer Error (Line: 1) ";
  }
}
