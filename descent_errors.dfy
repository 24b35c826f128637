/**
 * The error side of `parseProgram`: where it stops on input that is not a
 * program, and which error it throws there.
 */
module DescentErrors {
  import opened Tokens
  import opened Scanner
  import opened Descent
  import opened Grammar
  import opened DescentFacts

  /**
   * A program whose END is missing: every segment is read, then END-FILE
   * is met where the loop of `parseProgram` looks for END, and the
   * unexpected-end error names the line of that END-FILE.
   */
  lemma {:induction false} ProgramRunsOut(f: TokenStream, p: Program)
    requires WellFormedStream(f) && ProgramOk(p) && Spells(f, 0, SegmentsYield(p.segments) + [EndFile])
    ensures |SegmentsYield(p.segments)| + 1 == |f.tokens|
    ensures ParseProgram(f, 0) ==
      Parsed(Fail(ParseError(f.lines[|f.tokens| - 1], UnexpectedEnd)), |f.tokens| - 1,
        [NextTokenIs(Start), Enter(ProgramRule)] + SegmentsLines(f, 0, p.segments))
  {
    var q := |SegmentsYield(p.segments)|;
    SpellsAppend(f, 0, SegmentsYield(p.segments), [EndFile]);
    SpellsKind(f, q, [EndFile], 0);
    SpellsKind(f, 0, SegmentsYield(p.segments), 0);
    SegmentsRunOut(f, 0, p.segments, q);
    LoopFails(f);
  }

  /** START is matched in place, so a failing loop is the failure of `parseProgram`. */
  lemma LoopFails(f: TokenStream)
    requires InStream(f, 0) && f.tokens[0].kind == Start && ProgramLoop(f, 0).outcome.Fail?
    ensures var body := ProgramLoop(f, 0);
      ParseProgram(f, 0) == Parsed(body.outcome, body.pos, [NextTokenIs(Start), Enter(ProgramRule)] + body.lines)
  {
    var body := ProgramLoop(f, 0);
    var entered := AndThen(Parsed(Pass, 0, [NextTokenIs(Start)]), Parsed(Pass, 0, [Enter(ProgramRule)]));
    assert Expect(f, 0, [Start], false) == Parsed(Pass, 0, []);
    assert entered.lines == [NextTokenIs(Start), Enter(ProgramRule)];
    assert ParseProgram(f, 0) == AndThen(entered, body);
  }

  /**
   * A lookahead that neither ends the block nor starts a statement: the
   * statement list opens, its statement opens, and `#parseStatement` throws
   * the no-statement error naming that token's type.
   */
  lemma NoStatementHere(f: TokenStream, pos: nat)
    requires InStream(f, pos) && f.tokens[pos].kind !in BlockEnds && f.tokens[pos].kind !in [Id, Loop, If]
    ensures ParseStatements(f, pos) ==
      Parsed(Fail(ParseError(f.lines[pos], NoStatement(f.tokens[pos].kind))), pos,
        [Enter(StatementsRule), Enter(StatementRule)])
  {
    var s := ParseStatement(f, pos);
    assert s == Parsed(Fail(ErrorAt(f, pos, NoStatement(f.tokens[pos].kind))), pos, [Enter(StatementRule)]);
    assert MoreStatements(f, pos) == s;
  }

  /**
   * START, ID, ASSIGN, NUM, END: the assignment's expression ends at END,
   * where `#match` wants SEMI, so the mismatch error names SEMI and END and
   * the line read with END.
   */
  lemma MissingSemicolon(f: TokenStream)
    requires WellFormedStream(f) && |f.tokens| > 4
    requires f.tokens[0].kind == Start && f.tokens[1].kind == Id && f.tokens[2].kind == Assign
    requires f.tokens[3].kind == Num && f.tokens[4].kind == End
    ensures ParseProgram(f, 0).outcome == Fail(ParseError(f.lines[4], Mismatch([Semi], End)))
  {
    var fail := Fail(ErrorAt(f, 4, Mismatch([Semi], End)));
    StatementsMissSemicolon(f);
    AdvanceStep(f, 0);
    assert !Check(f.tokens[0], [End]) && !Check(f.tokens[0], [EndFile]);
    assert ProgramLoop(f, 0) == AndThen(Advance(f, 0), ParseStatements(f, 1));
    LoopFails(f);
  }

  /** The statement list that starts with that assignment fails with it. */
  lemma StatementsMissSemicolon(f: TokenStream)
    requires WellFormedStream(f) && |f.tokens| > 4
    requires f.tokens[1].kind == Id && f.tokens[2].kind == Assign
    requires f.tokens[3].kind == Num && f.tokens[4].kind == End
    ensures ParseStatements(f, 1).outcome == Fail(ErrorAt(f, 4, Mismatch([Semi], End)))
  {
    var fail := Fail(ErrorAt(f, 4, Mismatch([Semi], End)));
    AssignMissesSemicolon(f);
    assert !Check(f.tokens[1], BlockEnds) && Check(f.tokens[1], [Id]);
    assert ParseStatement(f, 1) == Wrap(StatementRule, ParseAssign(f, 1));
    assert MoreStatements(f, 1) == ParseStatement(f, 1);
  }

  /** `ID = NUM` followed by END: the assignment fails where SEMI is wanted. */
  lemma AssignMissesSemicolon(f: TokenStream)
    requires WellFormedStream(f) && |f.tokens| > 4
    requires f.tokens[1].kind == Id && f.tokens[2].kind == Assign
    requires f.tokens[3].kind == Num && f.tokens[4].kind == End
    ensures ParseAssign(f, 1).outcome == Fail(ErrorAt(f, 4, Mismatch([Semi], End)))
  {
    ExpectStep(f, 1, [Id]);
    ExpectStep(f, 2, [Assign]);
    ExpectStep(f, 3, Operands);
    assert ParseVar(f, 3).outcome.Pass? && ParseVar(f, 3).pos == 4;
    assert ParseTerm(f, 3).outcome.Pass? && ParseTerm(f, 3).pos == 4;
    assert MoreTerms(f, 4) == Parsed(Pass, 4, []);
    assert ParseExpression(f, 3).outcome.Pass? && ParseExpression(f, 3).pos == 4;
    assert Expect(f, 4, [Semi], true).outcome == Fail(ErrorAt(f, 4, Mismatch([Semi], End)));
  }

  /**
   * START and then a lexer error: the first `#advanceToken` of the loop of
   * `parseProgram` throws that lexer error.
   */
  lemma LexErrorAfterStart(f: TokenStream)
    requires WellFormedStream(f) && |f.tokens| == 1 && f.tokens[0].kind == Start
    ensures f.failure.Some?
    ensures ParseProgram(f, 0).outcome == Fail(f.failure.get)
  {
  }
}
