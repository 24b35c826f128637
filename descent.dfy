/**
 * The meaning of the `Parser` methods, as functions of the strict token
 * stream the lexer produces and of the position of the lookahead in it.
 * Each function returns how the method ends (normally or with the thrown
 * error), where the lookahead is afterwards, and the console lines it
 * appends.  The class `Parsing.Parser` runs the methods on a live lexer and
 * is proved equal to these functions.
 */
module Descent {
  import opened Tokens
  import opened Scanner

  /** The rules that announce themselves on the console. */
  datatype Rule =
    | ProgramRule | StatementsRule | StatementRule | AssignRule | LoopRule | IfRule
    | LogicRule | ExpressionRule | TermRule | VarRule
  {
    function Name(): string {
      match this
      case ProgramRule => "program"
      case StatementsRule => "statements"
      case StatementRule => "statement"
      case AssignRule => "assign"
      case LoopRule => "loop"
      case IfRule => "if"
      case LogicRule => "logic"
      case ExpressionRule => "expression"
      case TermRule => "term"
      case VarRule => "var"
    }
  }

  /** One line of the parser's console output. */
  datatype Line = NextTokenIs(kind: TokenKind) | Enter(rule: Rule) | Exit(rule: Rule)
  {
    function Text(): string {
      match this
      case NextTokenIs(kind) => "Next Token is " + kind.Name() + "\n"
      case Enter(rule) => "Enter < " + rule.Name() + " >\n"
      case Exit(rule) => "Exit < " + rule.Name() + " >\n"
    }
  }

  /** How a parser method ended, where the lookahead is now, the lines it appended. */
  datatype Parsed = Parsed(outcome: Outcome, pos: nat, lines: seq<Line>)

  const Operands: seq<TokenKind> := [Id, Num]
  const Relations: seq<TokenKind> := [NotEqual, Equal, GreaterEqual, LessEqual, Less, Greater]
  const ArithmeticOps: seq<TokenKind> := [Add, Sub, Mult, Div, Remain]
  const BlockEnds: seq<TokenKind> := [EndLoop, EndIf, End, EndFile]

  /** `#checkToken(expectedTypes)`: the lookahead's type is one of them. */
  predicate Check(t: Token, expected: seq<TokenKind>) {
    t.kind in expected
  }

  /** The precondition every parsing function shares. */
  predicate InStream(f: TokenStream, pos: nat) {
    WellFormedStream(f) && pos < |f.tokens|
  }

  /** The line `#outputNextTokenToConsole` writes, held back for END and END-FILE. */
  function Announce(t: Token): seq<Line> {
    if t.kind == End || t.kind == EndFile then [] else [NextTokenIs(t.kind)]
  }

  /** A parser error at the line the lexer has reached with the lookahead at `pos`. */
  function ErrorAt(f: TokenStream, pos: nat, problem: Problem): SyntaxError
    requires InStream(f, pos)
  {
    ParseError(f.lines[pos], problem)
  }

  /** `b` after `a` succeeded: the lines of both, the end of `b`. */
  function AndThen(a: Parsed, b: Parsed): Parsed {
    Parsed(b.outcome, b.pos, a.lines + b.lines)
  }

  /** `Enter < rule >`, the body, and `Exit < rule >` when the body succeeded. */
  function Wrap(rule: Rule, body: Parsed): Parsed {
    Parsed(body.outcome, body.pos,
      [Enter(rule)] + body.lines + (if body.outcome.Pass? then [Exit(rule)] else []))
  }

  /**
   * `#advanceToken`: the next token becomes the lookahead, or the lexer
   * error that reading it throws.
   */
  function Advance(f: TokenStream, pos: nat): (r: Parsed)
    requires InStream(f, pos) && f.tokens[pos].kind != EndFile
    ensures r.outcome.Pass? ==> r.pos == pos + 1 && r.pos < |f.tokens|
    ensures r.outcome.Fail? ==> r.pos == pos && r.outcome.error.LexError?
  {
    if pos + 1 < |f.tokens| then Parsed(Pass, pos + 1, Announce(f.tokens[pos + 1]))
    else Parsed(Fail(f.failure.get), pos, [])
  }

  /**
   * `#match(expected)` with its error sent: the lookahead matches and, when
   * `advance`, is replaced; otherwise the mismatch error.
   */
  function Expect(f: TokenStream, pos: nat, expected: seq<TokenKind>, advance: bool): (r: Parsed)
    requires InStream(f, pos) && (advance ==> EndFile !in expected)
    ensures pos <= r.pos < |f.tokens|
    ensures r.outcome.Pass? && advance ==> r.pos == pos + 1
  {
    if !Check(f.tokens[pos], expected) then
      Parsed(Fail(ErrorAt(f, pos, Mismatch(expected, f.tokens[pos].kind))), pos, [])
    else if advance then Advance(f, pos)
    else Parsed(Pass, pos, [])
  }

  /** `#parseVar`: an ID or a NUM. */
  function ParseVar(f: TokenStream, pos: nat): (r: Parsed)
    requires InStream(f, pos)
    ensures pos <= r.pos < |f.tokens|
    ensures r.outcome.Pass? ==> r.pos == pos + 1
  {
    Wrap(VarRule, Expect(f, pos, Operands, true))
  }

  /** `parseTerm`: a parenthesised expression, or else a var. */
  function ParseTerm(f: TokenStream, pos: nat): (r: Parsed)
    requires InStream(f, pos)
    ensures pos <= r.pos < |f.tokens|
    ensures r.outcome.Pass? ==> pos < r.pos
    decreases |f.tokens| - pos, 1
  {
    Wrap(TermRule,
      if Check(f.tokens[pos], [LeftPar]) then
        var a := Advance(f, pos);
        if a.outcome.Fail? then a
        else
          var e := ParseExpression(f, a.pos);
          if e.outcome.Fail? then AndThen(a, e)
          else AndThen(AndThen(a, e), Expect(f, e.pos, [RightPar], true))
      else ParseVar(f, pos))
  }

  /** `#parseExpression`: a term, then more terms while an arithmetic operator follows. */
  function ParseExpression(f: TokenStream, pos: nat): (r: Parsed)
    requires InStream(f, pos)
    ensures pos <= r.pos < |f.tokens|
    ensures r.outcome.Pass? ==> pos < r.pos
    decreases |f.tokens| - pos, 3
  {
    Wrap(ExpressionRule,
      var t := ParseTerm(f, pos);
      if t.outcome.Fail? then t else AndThen(t, MoreTerms(f, t.pos)))
  }

  /** The loop of `#parseExpression`. */
  function MoreTerms(f: TokenStream, pos: nat): (r: Parsed)
    requires InStream(f, pos)
    ensures pos <= r.pos < |f.tokens|
    decreases |f.tokens| - pos, 2
  {
    if Check(f.tokens[pos], ArithmeticOps) then
      var a := Advance(f, pos);
      if a.outcome.Fail? then a
      else
        var t := ParseTerm(f, a.pos);
        if t.outcome.Fail? then AndThen(a, t)
        else AndThen(AndThen(a, t), MoreTerms(f, t.pos))
    else Parsed(Pass, pos, [])
  }

  /** `#parseLogic`: an ID, a comparison operator, a var. */
  function ParseLogic(f: TokenStream, pos: nat): (r: Parsed)
    requires InStream(f, pos)
    ensures pos <= r.pos < |f.tokens|
  {
    Wrap(LogicRule,
      var a := Expect(f, pos, [Id], true);
      if a.outcome.Fail? then a
      else
        var b := Expect(f, a.pos, Relations, true);
        if b.outcome.Fail? then AndThen(a, b)
        else AndThen(AndThen(a, b), ParseVar(f, b.pos)))
  }

  /** `#parseAssign`: ID `=` expression `;`. */
  function ParseAssign(f: TokenStream, pos: nat): (r: Parsed)
    requires InStream(f, pos)
    ensures pos <= r.pos < |f.tokens|
    ensures r.outcome.Pass? ==> pos < r.pos
    decreases |f.tokens| - pos, 4
  {
    Wrap(AssignRule,
      var a := Expect(f, pos, [Id], true);
      if a.outcome.Fail? then a
      else
        var b := Expect(f, a.pos, [Assign], true);
        if b.outcome.Fail? then AndThen(a, b)
        else
          var e := ParseExpression(f, b.pos);
          if e.outcome.Fail? then AndThen(AndThen(a, b), e)
          else AndThen(AndThen(AndThen(a, b), e), Expect(f, e.pos, [Semi], true)))
  }

  /** `#parseLoop`: LOOP `(` ID `=` var `:` var `)` statements END-LOOP. */
  function ParseLoop(f: TokenStream, pos: nat): (r: Parsed)
    requires InStream(f, pos) && f.tokens[pos].kind == Loop
    ensures pos <= r.pos < |f.tokens|
    ensures r.outcome.Pass? ==> pos < r.pos
    decreases |f.tokens| - pos, 4
  {
    Wrap(LoopRule, LoopBody(f, pos))
  }

  /** What `#parseLoop` does between its two console lines. */
  function LoopBody(f: TokenStream, pos: nat): (r: Parsed)
    requires InStream(f, pos) && f.tokens[pos].kind == Loop
    ensures pos <= r.pos < |f.tokens|
    ensures r.outcome.Pass? ==> pos < r.pos
    decreases |f.tokens| - pos, 3
  {
    var a := Advance(f, pos);
    if a.outcome.Fail? then a
    else
      var b := Expect(f, a.pos, [LeftPar], true);
      if b.outcome.Fail? then AndThen(a, b)
      else
        var c := Expect(f, b.pos, [Id], true);
        if c.outcome.Fail? then AndThen(AndThen(a, b), c)
        else
          var d := Expect(f, c.pos, [Assign], true);
          if d.outcome.Fail? then AndThen(AndThen(AndThen(a, b), c), d)
          else
            var head := AndThen(AndThen(AndThen(a, b), c), d);
            var v := ParseVar(f, head.pos);
            if v.outcome.Fail? then AndThen(head, v)
            else
              var e := Expect(f, v.pos, [Colon], true);
              if e.outcome.Fail? then AndThen(AndThen(head, v), e)
              else
                var w := ParseVar(f, e.pos);
                if w.outcome.Fail? then AndThen(AndThen(AndThen(head, v), e), w)
                else
                  var range := AndThen(AndThen(AndThen(head, v), e), w);
                  Block(f, range, [RightPar], EndLoop)
  }

  /**
   * The common tail of `#parseLoop` and `#parseIf` after `prefix`: the
   * closing token `close`, the statements, and the block's end token.
   */
  function Block(f: TokenStream, prefix: Parsed, close: seq<TokenKind>, last: TokenKind): (r: Parsed)
    requires InStream(f, prefix.pos) && prefix.outcome.Pass? && EndFile !in close && last != EndFile
    ensures prefix.pos <= r.pos < |f.tokens|
    decreases |f.tokens| - prefix.pos, 2
  {
    var p := Expect(f, prefix.pos, close, true);
    if p.outcome.Fail? then AndThen(prefix, p)
    else
      var s := ParseStatements(f, p.pos);
      if s.outcome.Fail? then AndThen(AndThen(prefix, p), s)
      else AndThen(AndThen(AndThen(prefix, p), s), Expect(f, s.pos, [last], true))
  }

  /** `#parseIf`: IF `(` logic `)` statements END-IF. */
  function ParseIf(f: TokenStream, pos: nat): (r: Parsed)
    requires InStream(f, pos) && f.tokens[pos].kind == If
    ensures pos <= r.pos < |f.tokens|
    ensures r.outcome.Pass? ==> pos < r.pos
    decreases |f.tokens| - pos, 4
  {
    Wrap(IfRule, IfBody(f, pos))
  }

  /** What `#parseIf` does between its two console lines. */
  function IfBody(f: TokenStream, pos: nat): (r: Parsed)
    requires InStream(f, pos) && f.tokens[pos].kind == If
    ensures pos <= r.pos < |f.tokens|
    ensures r.outcome.Pass? ==> pos < r.pos
    decreases |f.tokens| - pos, 3
  {
    var a := Advance(f, pos);
    if a.outcome.Fail? then a
    else
      var b := Expect(f, a.pos, [LeftPar], true);
      if b.outcome.Fail? then AndThen(a, b)
      else
        var l := ParseLogic(f, b.pos);
        if l.outcome.Fail? then AndThen(AndThen(a, b), l)
        else Block(f, AndThen(AndThen(a, b), l), [RightPar], EndIf)
  }

  /** `#parseStatement`: chosen by the lookahead; anything else is an error. */
  function ParseStatement(f: TokenStream, pos: nat): (r: Parsed)
    requires InStream(f, pos)
    ensures pos <= r.pos < |f.tokens|
    ensures r.outcome.Pass? ==> pos < r.pos
    decreases |f.tokens| - pos, 5
  {
    Wrap(StatementRule,
      match f.tokens[pos].kind
      case Id => ParseAssign(f, pos)
      case Loop => ParseLoop(f, pos)
      case If => ParseIf(f, pos)
      case _ => Parsed(Fail(ErrorAt(f, pos, NoStatement(f.tokens[pos].kind))), pos, []))
  }

  /**
   * `#parseStatements`: one `Enter < statements >`, then statements up to a
   * block end, each followed by `Exit < statements >`.
   */
  function ParseStatements(f: TokenStream, pos: nat): (r: Parsed)
    requires InStream(f, pos)
    ensures pos <= r.pos < |f.tokens|
    decreases |f.tokens| - pos, 7
  {
    var r := MoreStatements(f, pos);
    Parsed(r.outcome, r.pos, [Enter(StatementsRule)] + r.lines)
  }

  /** The loop of `#parseStatements`. */
  function MoreStatements(f: TokenStream, pos: nat): (r: Parsed)
    requires InStream(f, pos)
    ensures pos <= r.pos < |f.tokens|
    ensures r.outcome.Pass? ==> f.tokens[r.pos].kind in BlockEnds
    decreases |f.tokens| - pos, 6
  {
    if Check(f.tokens[pos], BlockEnds) then Parsed(Pass, pos, [])
    else
      var s := ParseStatement(f, pos);
      if s.outcome.Fail? then s
      else AndThen(Parsed(Pass, s.pos, s.lines + [Exit(StatementsRule)]), MoreStatements(f, s.pos))
  }

  /**
   * The loop of `parseProgram`: until END, step over the lookahead (START
   * the first time, a stray END-LOOP or END-IF later) and parse statements;
   * END-FILE first is an error.
   */
  function ProgramLoop(f: TokenStream, pos: nat): (r: Parsed)
    requires InStream(f, pos)
    ensures pos <= r.pos < |f.tokens|
    ensures r.outcome.Pass? ==> f.tokens[r.pos].kind == End
    decreases |f.tokens| - pos
  {
    if Check(f.tokens[pos], [End]) then Parsed(Pass, pos, [])
    else if Check(f.tokens[pos], [EndFile]) then
      Parsed(Fail(ErrorAt(f, pos, UnexpectedEnd)), pos, [])
    else
      var a := Advance(f, pos);
      if a.outcome.Fail? then a
      else
        var s := ParseStatements(f, a.pos);
        if s.outcome.Fail? then AndThen(a, s)
        else AndThen(AndThen(a, s), ProgramLoop(f, s.pos))
  }

  /** `parseProgram`, with the lookahead at `pos` (the parser's first token is at 0). */
  function ParseProgram(f: TokenStream, pos: nat): (r: Parsed)
    requires InStream(f, pos)
    ensures pos <= r.pos < |f.tokens|
  {
    var shown := Parsed(Pass, pos, [NextTokenIs(f.tokens[pos].kind)]);
    var start := Expect(f, pos, [Start], false);
    if start.outcome.Fail? then AndThen(shown, start)
    else
      var body := ProgramLoop(f, pos);
      var entered := AndThen(shown, Parsed(Pass, pos, [Enter(ProgramRule)]));
      if body.outcome.Fail? then AndThen(entered, body)
      else
        var end := Expect(f, body.pos, [End], true);
        var closing := AndThen(AndThen(entered, body), Parsed(Pass, body.pos, [NextTokenIs(End)]));
        if end.outcome.Fail? then AndThen(closing, end)
        else
          var eof := Expect(f, end.pos, [EndFile], false);
          if eof.outcome.Fail? then AndThen(AndThen(closing, end), eof)
          else AndThen(AndThen(AndThen(closing, end), eof), Parsed(Pass, eof.pos, [Exit(ProgramRule)]))
  }
}
