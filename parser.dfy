/**
 * The `Parser` class: a one-token lookahead over a live `Lexer`, and the
 * console it appends to.  Each method is proved to do what the `Descent`
 * function of the same name says, on the strict token stream the lexer
 * yields from where it stood when the parser was made; a thrown
 * `SyntaxError` is a `Fail` outcome, after which the parser is not used again.
 */
module Parsing {
  import opened Tokens
  import opened Scanner
  import opened Descent
  import opened Lexing

  /** The lexer's index after each token of `StreamFrom(input, index, line)`. */
  ghost function EndsFrom(input: string, index: nat, line: nat): (ends: seq<nat>)
    ensures |ends| == |StreamFrom(input, index, line).tokens|
    decreases Remaining(input, index)
  {
    var s := Scan(input, index, line, false);
    ScanShape(input, index, line, false);
    match s.result
    case Err(_) => []
    case Ok(t) => if t.kind == EndFile then [s.index] else [s.index] + EndsFrom(input, s.index, s.line)
  }

  /**
   * A strict read from where the token at `k` left the lexer gives the
   * token at `k + 1`, its line and index, or the error that ends `f`.
   */
  ghost predicate Reads(input: string, f: TokenStream, ends: seq<nat>, k: nat) {
    && k < |ends| && k < |f.lines|
    && var s := Scan(input, ends[k], f.lines[k], false);
       match s.result
       case Err(e) => k + 1 == |f.tokens| && f.failure == Some(e)
       case Ok(t) =>
         && k + 1 < |f.tokens| && k + 1 < |f.lines| && k + 1 < |ends|
         && f.tokens[k + 1] == t && f.lines[k + 1] == s.line && ends[k + 1] == s.index
  }

  /** `f` is read token after token by a strict lexer, which stands at `ends[k]` after the token at `k`. */
  ghost predicate Strict(input: string, f: TokenStream, ends: seq<nat>) {
    && |ends| == |f.tokens|
    && forall k {:trigger Reads(input, f, ends, k)} ::
         0 <= k < |f.tokens| && f.tokens[k].kind != EndFile ==> Reads(input, f, ends, k)
  }

  /** The stream a lexer yields from its state is read that way. */
  lemma {:induction false} StrictFrom(input: string, index: nat, line: nat)
    ensures Strict(input, StreamFrom(input, index, line), EndsFrom(input, index, line))
    decreases Remaining(input, index)
  {
    var s := Scan(input, index, line, false);
    ScanShape(input, index, line, false);
    if s.result.Ok? && s.result.value.kind != EndFile {
      var f, ends := StreamFrom(input, index, line), EndsFrom(input, index, line);
      var r, rest := StreamFrom(input, s.index, s.line), EndsFrom(input, s.index, s.line);
      StrictFrom(input, s.index, s.line);
      forall k | 0 <= k < |f.tokens| && f.tokens[k].kind != EndFile
        ensures Reads(input, f, ends, k)
      {
        if k > 0 {
          assert Reads(input, r, rest, k - 1);
        }
      }
    }
  }

  /** The outcome of a `#match` call: its boolean, or the error it throws. */
  function Ended(r: Result<bool>): Outcome {
    if r.Ok? then Pass else Fail(r.error)
  }

  /** Console lines appended one run after another. */
  lemma {:induction false} Extend(c: seq<Line>, acc: Parsed, step: Parsed)
    ensures c + acc.lines + step.lines == c + AndThen(acc, step).lines
  {
    assert c + acc.lines + step.lines == c + (acc.lines + step.lines);
  }

  /** A run's lines, then one more line closing them. */
  lemma {:induction false} ExtendClosed(c: seq<Line>, acc: Parsed, s: Parsed, line: Line)
    ensures c + acc.lines + s.lines + [line] == c + AndThen(acc, Parsed(Pass, s.pos, s.lines + [line])).lines
  {
    assert c + acc.lines + s.lines + [line] == c + (acc.lines + (s.lines + [line]));
  }

  /** A line opening a run, then the run's lines. */
  lemma {:induction false} Opened(c: seq<Line>, line: Line, r: Parsed)
    ensures c + [line] + r.lines == c + ([line] + r.lines)
  {
  }

  /** A rule's console lines around its body's. */
  lemma {:induction false} Wrapped(c: seq<Line>, rule: Rule, body: Parsed)
    ensures c + [Enter(rule)] + body.lines + (if body.outcome.Pass? then [Exit(rule)] else [])
      == c + Wrap(rule, body).lines
  {
    var tail := if body.outcome.Pass? then [Exit(rule)] else [];
    assert c + [Enter(rule)] + body.lines + tail == c + ([Enter(rule)] + body.lines + tail);
  }

  /** `AndThen` regroups. */
  lemma {:induction false} AndThenAssoc(a: Parsed, b: Parsed, c: Parsed)
    ensures AndThen(a, AndThen(b, c)) == AndThen(AndThen(a, b), c)
  {
    assert a.lines + (b.lines + c.lines) == a.lines + b.lines + c.lines;
  }

  /** One pass of the loop of `#parseExpression`, over its operator `a` and term `u`. */
  lemma {:induction false} MoreTermsCases(f: TokenStream, q: nat, a: Parsed, u: Parsed)
    requires InStream(f, q) && Check(f.tokens[q], ArithmeticOps)
    requires a == Advance(f, q) && a.outcome.Pass? && u == Descent.ParseTerm(f, a.pos)
    ensures MoreTerms(f, q) ==
      if u.outcome.Fail? then AndThen(a, u) else AndThen(AndThen(a, u), MoreTerms(f, u.pos))
  {
  }

  /** One pass of the loop of `#parseStatements`, over the statement `s` it parses. */
  lemma {:induction false} MoreStatementsCases(f: TokenStream, q: nat, s: Parsed)
    requires InStream(f, q) && !Check(f.tokens[q], BlockEnds) && s == Descent.ParseStatement(f, q)
    ensures MoreStatements(f, q) ==
      if s.outcome.Fail? then s
      else AndThen(Parsed(Pass, s.pos, s.lines + [Exit(StatementsRule)]), MoreStatements(f, s.pos))
  {
  }

  /**
   * One pass of the loop of `parseProgram`, over the token `a` it steps to
   * and the statements `s` it parses after it.
   */
  lemma {:induction false} ProgramLoopCases(f: TokenStream, q: nat, a: Parsed, s: Parsed)
    requires InStream(f, q)
    requires !Check(f.tokens[q], [End]) && !Check(f.tokens[q], [EndFile]) ==> a == Advance(f, q)
    requires !Check(f.tokens[q], [End]) && !Check(f.tokens[q], [EndFile]) && a.outcome.Pass? ==>
      s == Descent.ParseStatements(f, a.pos)
    ensures ProgramLoop(f, q) ==
      if Check(f.tokens[q], [End]) then Parsed(Pass, q, [])
      else if Check(f.tokens[q], [EndFile]) then Parsed(Fail(ErrorAt(f, q, UnexpectedEnd)), q, [])
      else if a.outcome.Fail? then a
      else if s.outcome.Fail? then AndThen(a, s)
      else AndThen(AndThen(a, s), ProgramLoop(f, s.pos))
  {
  }

  /** `parseProgram` over the results `start`, `body`, `end` and `eof` of its steps. */
  lemma {:induction false} ProgramCases(f: TokenStream, pos: nat, start: Parsed, body: Parsed, end: Parsed, eof: Parsed)
    requires InStream(f, pos) && start == Expect(f, pos, [Start], false)
    requires start.outcome.Pass? ==> body == ProgramLoop(f, pos)
    requires start.outcome.Pass? && body.outcome.Pass? ==> end == Expect(f, body.pos, [End], true)
    requires start.outcome.Pass? && body.outcome.Pass? && end.outcome.Pass? ==>
      eof == Expect(f, end.pos, [EndFile], false)
    ensures
      var shown := Parsed(Pass, pos, [NextTokenIs(f.tokens[pos].kind)]);
      var entered := AndThen(shown, Parsed(Pass, pos, [Enter(ProgramRule)]));
      var closing := AndThen(AndThen(entered, body), Parsed(Pass, body.pos, [NextTokenIs(End)]));
      Descent.ParseProgram(f, pos) ==
        if start.outcome.Fail? then AndThen(shown, start)
        else if body.outcome.Fail? then AndThen(entered, body)
        else if end.outcome.Fail? then AndThen(closing, end)
        else if eof.outcome.Fail? then AndThen(AndThen(closing, end), eof)
        else AndThen(AndThen(AndThen(closing, end), eof), Parsed(Pass, eof.pos, [Exit(ProgramRule)]))
  {
  }

  /** `#parseAssign` over the results `a`, `b`, `e` and `c` of its steps. */
  lemma {:induction false} AssignCases(f: TokenStream, pos: nat, a: Parsed, b: Parsed, e: Parsed, c: Parsed, body: Parsed)
    requires InStream(f, pos) && a == Expect(f, pos, [Id], true)
    requires a.outcome.Pass? ==> b == Expect(f, a.pos, [Assign], true)
    requires a.outcome.Pass? && b.outcome.Pass? ==> e == Descent.ParseExpression(f, b.pos)
    requires a.outcome.Pass? && b.outcome.Pass? && e.outcome.Pass? ==> c == Expect(f, e.pos, [Semi], true)
    requires body ==
      if a.outcome.Fail? then a
      else if b.outcome.Fail? then AndThen(a, b)
      else if e.outcome.Fail? then AndThen(AndThen(a, b), e)
      else AndThen(AndThen(AndThen(a, b), e), c)
    ensures Descent.ParseAssign(f, pos) == Wrap(AssignRule, body)
  {
  }

  /** `#parseStatement` over the result `body` of the branch the lookahead picks. */
  lemma {:induction false} StatementCases(f: TokenStream, pos: nat, body: Parsed)
    requires InStream(f, pos)
    requires body ==
      match f.tokens[pos].kind
      case Id => Descent.ParseAssign(f, pos)
      case Loop => Descent.ParseLoop(f, pos)
      case If => Descent.ParseIf(f, pos)
      case _ => Parsed(Fail(ErrorAt(f, pos, NoStatement(f.tokens[pos].kind))), pos, [])
    ensures Descent.ParseStatement(f, pos) == Wrap(StatementRule, body)
  {
  }

  class Parser {
    const lexer: Lexer
    /** `#nextToken`: the lookahead. */
    var nextToken: Token
    /** The lines the parser has appended to the console. */
    var console: seq<Line>
    /** The strict stream the lexer yields from where the parser started it. */
    ghost const f: TokenStream
    /** The lexer's index after each token of `f`. */
    ghost const ends: seq<nat>
    /** Where the lookahead lies in `f`. */
    ghost var pos: nat

    /**
     * The lookahead is the token at `pos`, the lexer's line is the one it
     * reached reading it, and, unless the lookahead is END-FILE, what the
     * lexer reads next is the rest of `f`.
     */
    ghost predicate Valid()
      reads this`nextToken, this`pos, lexer
    {
      && lexer.Valid()
      && InStream(f, pos)
      && nextToken == f.tokens[pos]
      && lexer.line == f.lines[pos]
      && Strict(lexer.input, f, ends)
      && lexer.index == ends[pos]
    }

    /**
     * A method ended with `o`, appended the lines of `r` to the console as
     * it stood at `console0`, and, unless it threw, left the lookahead where
     * `r` ends.
     */
    ghost predicate Follows(o: Outcome, console0: seq<Line>, r: Parsed)
      reads this, lexer
    {
      o == r.outcome && console == console0 + r.lines && (o.Pass? ==> Valid() && pos == r.pos)
    }

    constructor Init(lexer: Lexer, first: Token, ghost f: TokenStream, ghost ends: seq<nat>)
      ensures this.lexer == lexer && nextToken == first && console == [] && this.f == f && pos == 0
      ensures this.ends == ends
    {
      this.lexer := lexer;
      nextToken := first;
      console := [];
      this.f := f;
      this.ends := ends;
      pos := 0;
    }

    /**
     * `new Parser(lexer)`: reads the first token; `Err` is the lexer error
     * the constructor throws instead.
     */
    static method New(lexer: Lexer) returns (r: Result<Parser>)
      requires lexer.Valid()
      modifies lexer
      ensures var f := StreamFrom(lexer.input, old(lexer.index), old(lexer.line));
        match r
        case Err(e) => f.tokens == [] && f.failure == Some(e)
        case Ok(p) => fresh(p) && p.lexer == lexer && p.f == f && p.pos == 0 && p.console == [] && p.Valid()
    {
      ghost var f := StreamFrom(lexer.input, lexer.index, lexer.line);
      ghost var ends := EndsFrom(lexer.input, lexer.index, lexer.line);
      StrictFrom(lexer.input, lexer.index, lexer.line);
      var t := lexer.NextToken(false);
      if t.Err? {
        r := Err(t.error);
      } else {
        var p := new Parser.Init(lexer, t.value, f, ends);
        r := Ok(p);
      }
    }

    /** `#outputNextTokenToConsole` */
    method OutputNextTokenToConsole()
      modifies this`console
      ensures console == old(console) + [NextTokenIs(nextToken.kind)]
    {
      console := console + [NextTokenIs(nextToken.kind)];
    }

    /** `#advanceToken`: the next strict token becomes the lookahead, announced unless END or END-FILE. */
    method AdvanceToken() returns (o: Outcome)
      requires Valid() && nextToken.kind != EndFile
      modifies this, lexer
      ensures Follows(o, old(console), Advance(f, old(pos)))
    {
      assert Reads(lexer.input, f, ends, pos);
      var r := lexer.NextToken(false);
      if r.Err? {
        o := Fail(r.error);
      } else {
        nextToken := r.value;
        pos := pos + 1;
        if nextToken.kind != End && nextToken.kind != EndFile {
          OutputNextTokenToConsole();
        }
        o := Pass;
      }
    }

    /** `#checkToken(expectedTypes)`: whether the lookahead has one of the types; it changes nothing. */
    function CheckToken(expected: seq<TokenKind>): (b: bool)
      reads this`nextToken
      ensures b <==> exists i :: 0 <= i < |expected| && expected[i] == nextToken.kind
    {
      Check(nextToken, expected)
    }

    /** The error `#parseError` throws: the message with the lexer's current line. */
    function ParseErrorOf(problem: Problem): (e: SyntaxError)
      reads this`pos, this`nextToken, lexer
      requires Valid()
      ensures e == ErrorAt(f, pos, problem)
    {
      ParseError(lexer.line, problem)
    }

    /**
     * `#match(expectedTypes, sendErrorToConsole, advanceToken)`: `Ok(b)` is
     * what it returns, `Err` the error it throws.  A mismatch it does not
     * report changes nothing.
     */
    method Match(expected: seq<TokenKind>, sendError: bool, advance: bool) returns (r: Result<bool>)
      requires Valid() && (advance ==> EndFile !in expected)
      modifies this, lexer
      ensures !Check(old(nextToken), expected) && !sendError ==> r == Ok(false) && unchanged(this, lexer)
      ensures Check(old(nextToken), expected) || sendError ==>
        (r.Ok? ==> r.value) && Follows(Ended(r), old(console), Expect(f, old(pos), expected, advance))
    {
      if CheckToken(expected) {
        if advance {
          var o := AdvanceToken();
          r := if o.Pass? then Ok(true) else Err(o.error);
        } else {
          r := Ok(true);
        }
      } else if sendError {
        r := Err(ParseErrorOf(Mismatch(expected, nextToken.kind)));
      } else {
        r := Ok(false);
      }
    }

    /** `#match(expectedTypes)` with its defaults: report a mismatch, step over a match. */
    method Require(expected: seq<TokenKind>) returns (o: Outcome)
      requires Valid() && EndFile !in expected
      modifies this, lexer
      ensures Follows(o, old(console), Expect(f, old(pos), expected, true))
    {
      var r := Match(expected, true, true);
      o := Ended(r);
    }

    /** `#parseVar` */
    method ParseVar() returns (o: Outcome)
      requires Valid()
      modifies this, lexer
      ensures Follows(o, old(console), Descent.ParseVar(f, old(pos)))
    {
      ghost var p0, c0 := pos, console;
      console := console + [Enter(VarRule)];
      o := Require(Operands);
      if o.Pass? {
        console := console + [Exit(VarRule)];
      }
      Wrapped(c0, VarRule, Expect(f, p0, Operands, true));
    }

    /** `parseTerm`: `(` expression `)` when the lookahead is `(`, a var otherwise. */
    method ParseTerm() returns (o: Outcome)
      requires Valid()
      modifies this, lexer
      ensures Follows(o, old(console), Descent.ParseTerm(f, old(pos)))
      decreases |f.tokens| - pos, 1
    {
      ghost var p0, c0 := pos, console;
      console := console + [Enter(TermRule)];
      ghost var c1 := console;
      var r := Match([LeftPar], false, true);
      ghost var body: Parsed;
      if r == Ok(false) {
        o := ParseVar();
        body := Descent.ParseVar(f, p0);
      } else if r.Err? {
        o := Fail(r.error);
        body := Advance(f, p0);
      } else {
        ghost var a := Advance(f, p0);
        o := ParseExpression();
        ghost var e := Descent.ParseExpression(f, a.pos);
        Extend(c1, a, e);
        body := AndThen(a, e);
        if o.Pass? {
          o := Require([RightPar]);
          ghost var c := Expect(f, e.pos, [RightPar], true);
          Extend(c1, body, c);
          body := AndThen(body, c);
        }
      }
      if o.Pass? {
        console := console + [Exit(TermRule)];
      }
      Wrapped(c0, TermRule, body);
      assert Follows(o, c0, Wrap(TermRule, body));
    }

    /** `#parseExpression`: a term, then the loop over further terms. */
    method ParseExpression() returns (o: Outcome)
      requires Valid()
      modifies this, lexer
      ensures Follows(o, old(console), Descent.ParseExpression(f, old(pos)))
      decreases |f.tokens| - pos, 3
    {
      ghost var p0, c0 := pos, console;
      console := console + [Enter(ExpressionRule)];
      ghost var c1 := console;
      o := ParseTerm();
      ghost var body := Descent.ParseTerm(f, p0);
      if o.Pass? {
        ghost var t := body;
        o := MoreTerms();
        ghost var m := Descent.MoreTerms(f, t.pos);
        Extend(c1, t, m);
        body := AndThen(t, m);
      }
      if o.Pass? {
        console := console + [Exit(ExpressionRule)];
      }
      Wrapped(c0, ExpressionRule, body);
      assert Follows(o, c0, Wrap(ExpressionRule, body));
    }

    /** The loop of `#parseExpression`: another term after each arithmetic operator. */
    method MoreTerms() returns (o: Outcome)
      requires Valid()
      modifies this, lexer
      ensures Follows(o, old(console), Descent.MoreTerms(f, old(pos)))
      decreases |f.tokens| - pos, 2
    {
      ghost var m0, cm := pos, console;
      ghost var acc := Parsed(Pass, m0, []);
      o := Pass;
      while true
        invariant Valid() && o == Pass && m0 <= pos
        invariant console == cm + acc.lines && acc.outcome == Pass && acc.pos == pos
        invariant AndThen(acc, Descent.MoreTerms(f, pos)) == Descent.MoreTerms(f, m0)
        decreases |f.tokens| - pos
      {
        ghost var q := pos;
        var r := Match(ArithmeticOps, false, true);
        if r == Ok(false) {
          break;
        }
        ghost var a := Advance(f, q);
        if r.Err? {
          o := Fail(r.error);
          acc := AndThen(acc, a);
          break;
        }
        o := ParseTerm();
        ghost var u := Descent.ParseTerm(f, a.pos);
        MoreTermsCases(f, q, a, u);
        Extend(cm, acc, a);
        Extend(cm, AndThen(acc, a), u);
        AndThenAssoc(acc, a, u);
        if o.Fail? {
          acc := AndThen(AndThen(acc, a), u);
          break;
        }
        AndThenAssoc(acc, AndThen(a, u), Descent.MoreTerms(f, u.pos));
        AndThenAssoc(AndThen(acc, a), u, Descent.MoreTerms(f, u.pos));
        acc := AndThen(AndThen(acc, a), u);
      }
    }

    /** `#parseLogic`: an ID, a comparison operator, a var. */
    method ParseLogic() returns (o: Outcome)
      requires Valid()
      modifies this, lexer
      ensures Follows(o, old(console), Descent.ParseLogic(f, old(pos)))
    {
      ghost var p0, c0 := pos, console;
      console := console + [Enter(LogicRule)];
      ghost var c1 := console;
      o := Require([Id]);
      ghost var body := Expect(f, p0, [Id], true);
      if o.Pass? {
        ghost var a := body;
        o := Require(Relations);
        ghost var b := Expect(f, a.pos, Relations, true);
        Extend(c1, a, b);
        body := AndThen(a, b);
        if o.Pass? {
          o := ParseVar();
          ghost var v := Descent.ParseVar(f, b.pos);
          Extend(c1, body, v);
          body := AndThen(body, v);
        }
      }
      if o.Pass? {
        console := console + [Exit(LogicRule)];
      }
      Wrapped(c0, LogicRule, body);
      assert Follows(o, c0, Wrap(LogicRule, body));
    }

    /** `#parseAssign`: ID `=` expression `;`. */
    method ParseAssign() returns (o: Outcome)
      requires Valid()
      modifies this, lexer
      ensures Follows(o, old(console), Descent.ParseAssign(f, old(pos)))
      decreases |f.tokens| - pos, 4
    {
      ghost var p0, c0 := pos, console;
      console := console + [Enter(AssignRule)];
      ghost var c1 := console;
      o := Require([Id]);
      ghost var a := Expect(f, p0, [Id], true);
      ghost var b, e, c, body := a, a, a, a;
      if o.Pass? {
        o := Require([Assign]);
        b := Expect(f, a.pos, [Assign], true);
        Extend(c1, a, b);
        body := AndThen(a, b);
        if o.Pass? {
          o := ParseExpression();
          e := Descent.ParseExpression(f, b.pos);
          Extend(c1, body, e);
          body := AndThen(body, e);
          if o.Pass? {
            o := Require([Semi]);
            c := Expect(f, e.pos, [Semi], true);
            Extend(c1, body, c);
            body := AndThen(body, c);
          }
        }
      }
      AssignCases(f, p0, a, b, e, c, body);
      if o.Pass? {
        console := console + [Exit(AssignRule)];
      }
      Wrapped(c0, AssignRule, body);
      assert Follows(o, c0, Wrap(AssignRule, body));
    }

    /** `#parseLoop`: LOOP `(` ID `=` var `:` var `)` statements END-LOOP. */
    method ParseLoop() returns (o: Outcome)
      requires Valid() && nextToken.kind == Loop
      modifies this, lexer
      ensures Follows(o, old(console), Descent.ParseLoop(f, old(pos)))
      decreases |f.tokens| - pos, 4
    {
      ghost var p0, c0 := pos, console;
      console := console + [Enter(LoopRule)];
      ghost var c1 := console;
      o := AdvanceToken();
      ghost var body := Advance(f, p0);
      if o.Pass? {
        ghost var a := body;
        o := Require([LeftPar]);
        ghost var b := Expect(f, a.pos, [LeftPar], true);
        Extend(c1, a, b);
        body := AndThen(a, b);
        if o.Pass? {
          o := Require([Id]);
          ghost var c := Expect(f, b.pos, [Id], true);
          Extend(c1, body, c);
          body := AndThen(body, c);
          if o.Pass? {
            o := Require([Assign]);
            ghost var d := Expect(f, c.pos, [Assign], true);
            Extend(c1, body, d);
            body := AndThen(body, d);
            if o.Pass? {
              ghost var head := body;
              o := ParseVar();
              ghost var v := Descent.ParseVar(f, head.pos);
              Extend(c1, body, v);
              body := AndThen(body, v);
              if o.Pass? {
                o := Require([Colon]);
                ghost var e := Expect(f, v.pos, [Colon], true);
                Extend(c1, body, e);
                body := AndThen(body, e);
                if o.Pass? {
                  o := ParseVar();
                  ghost var w := Descent.ParseVar(f, e.pos);
                  Extend(c1, body, w);
                  body := AndThen(body, w);
                  if o.Pass? {
                    o := CloseBlock(c1, body, EndLoop);
                    body := Block(f, body, [RightPar], EndLoop);
                  }
                }
              }
            }
          }
        }
      }
      if o.Pass? {
        console := console + [Exit(LoopRule)];
      }
      Wrapped(c0, LoopRule, body);
      assert Follows(o, c0, Wrap(LoopRule, body));
    }

    /** `#parseIf`: IF `(` logic `)` statements END-IF. */
    method ParseIf() returns (o: Outcome)
      requires Valid() && nextToken.kind == If
      modifies this, lexer
      ensures Follows(o, old(console), Descent.ParseIf(f, old(pos)))
      decreases |f.tokens| - pos, 4
    {
      ghost var p0, c0 := pos, console;
      console := console + [Enter(IfRule)];
      ghost var c1 := console;
      o := AdvanceToken();
      ghost var body := Advance(f, p0);
      if o.Pass? {
        ghost var a := body;
        o := Require([LeftPar]);
        ghost var b := Expect(f, a.pos, [LeftPar], true);
        Extend(c1, a, b);
        body := AndThen(a, b);
        if o.Pass? {
          o := ParseLogic();
          ghost var l := Descent.ParseLogic(f, b.pos);
          Extend(c1, body, l);
          body := AndThen(body, l);
          if o.Pass? {
            o := CloseBlock(c1, body, EndIf);
            body := Block(f, body, [RightPar], EndIf);
          }
        }
      }
      if o.Pass? {
        console := console + [Exit(IfRule)];
      }
      Wrapped(c0, IfRule, body);
      assert Follows(o, c0, Wrap(IfRule, body));
    }

    /**
     * The common end of `#parseLoop` and `#parseIf`, after `prefix` has
     * written its lines since `c`: `)`, the statements, and `last`.
     */
    method CloseBlock(ghost c: seq<Line>, ghost prefix: Parsed, last: TokenKind) returns (o: Outcome)
      requires Valid() && prefix.outcome.Pass? && pos == prefix.pos && console == c + prefix.lines
      requires last != EndFile
      modifies this, lexer
      ensures Follows(o, c, Block(f, prefix, [RightPar], last))
      decreases |f.tokens| - pos, 3
    {
      o := Require([RightPar]);
      ghost var p := Expect(f, prefix.pos, [RightPar], true);
      Extend(c, prefix, p);
      ghost var body := AndThen(prefix, p);
      if o.Pass? {
        o := ParseStatements();
        ghost var s := Descent.ParseStatements(f, p.pos);
        Extend(c, body, s);
        body := AndThen(body, s);
        if o.Pass? {
          o := Require([last]);
          ghost var e := Expect(f, s.pos, [last], true);
          Extend(c, body, e);
        }
      }
    }

    /** `#parseStatement`: an assignment, a loop or an if, chosen by the lookahead. */
    method ParseStatement() returns (o: Outcome)
      requires Valid()
      modifies this, lexer
      ensures Follows(o, old(console), Descent.ParseStatement(f, old(pos)))
      decreases |f.tokens| - pos, 5
    {
      ghost var p0, c0 := pos, console;
      console := console + [Enter(StatementRule)];
      ghost var body: Parsed;
      if nextToken.kind == Id {
        o := ParseAssign();
        body := Descent.ParseAssign(f, p0);
      } else if nextToken.kind == Loop {
        o := ParseLoop();
        body := Descent.ParseLoop(f, p0);
      } else if nextToken.kind == If {
        o := ParseIf();
        body := Descent.ParseIf(f, p0);
      } else {
        o := Fail(ParseErrorOf(NoStatement(nextToken.kind)));
        body := Parsed(o, p0, []);
      }
      StatementCases(f, p0, body);
      if o.Pass? {
        console := console + [Exit(StatementRule)];
      }
      Wrapped(c0, StatementRule, body);
      assert Follows(o, c0, Wrap(StatementRule, body));
    }

    /** `#parseStatements`: statements up to a block end, each followed by `Exit < statements >`. */
    method ParseStatements() returns (o: Outcome)
      requires Valid()
      modifies this, lexer
      ensures Follows(o, old(console), Descent.ParseStatements(f, old(pos)))
      decreases |f.tokens| - pos, 7
    {
      ghost var p0 := pos;
      console := console + [Enter(StatementsRule)];
      ghost var cm := console;
      ghost var acc := Parsed(Pass, p0, []);
      o := Pass;
      while true
        invariant Valid() && o == Pass && p0 <= pos
        invariant console == cm + acc.lines && acc.outcome == Pass && acc.pos == pos
        invariant AndThen(acc, MoreStatements(f, pos)) == MoreStatements(f, p0)
        decreases |f.tokens| - pos
      {
        var atEnd := Match(BlockEnds, false, false);
        if atEnd == Ok(true) {
          break;
        }
        ghost var q := pos;
        o := ParseStatement();
        ghost var s := Descent.ParseStatement(f, q);
        MoreStatementsCases(f, q, s);
        if o.Fail? {
          Extend(cm, acc, s);
          acc := AndThen(acc, s);
          break;
        }
        console := console + [Exit(StatementsRule)];
        ghost var step := Parsed(Pass, s.pos, s.lines + [Exit(StatementsRule)]);
        ExtendClosed(cm, acc, s, Exit(StatementsRule));
        AndThenAssoc(acc, step, MoreStatements(f, s.pos));
        acc := AndThen(acc, step);
      }
      Opened(old(console), Enter(StatementsRule), acc);
    }

    /**
     * `parseProgram`: START shown and matched, segments until END, END
     * shown and stepped over, END-FILE matched.
     */
    method ParseProgram() returns (o: Outcome)
      requires Valid()
      modifies this, lexer
      ensures Follows(o, old(console), Descent.ParseProgram(f, old(pos)))
    {
      ghost var p0, c0 := pos, console;
      ghost var shown := Parsed(Pass, p0, [NextTokenIs(nextToken.kind)]);
      OutputNextTokenToConsole();
      var r := Match([Start], true, false);
      ghost var start := Expect(f, p0, [Start], false);
      Extend(c0, shown, start);
      if r.Err? {
        o := Fail(r.error);
        ProgramCases(f, p0, start, start, start, start);
        return;
      }
      console := console + [Enter(ProgramRule)];
      ghost var entered := AndThen(shown, Parsed(Pass, p0, [Enter(ProgramRule)]));
      Extend(c0, shown, Parsed(Pass, p0, [Enter(ProgramRule)]));
      assert start.lines == [];
      assert console == c0 + entered.lines;
      o := Segments();
      ghost var body := ProgramLoop(f, p0);
      Extend(c0, entered, body);
      if o.Fail? {
        ProgramCases(f, p0, start, body, body, body);
        return;
      }
      ghost var closing := AndThen(AndThen(entered, body), Parsed(Pass, body.pos, [NextTokenIs(End)]));
      OutputNextTokenToConsole();
      Extend(c0, AndThen(entered, body), Parsed(Pass, body.pos, [NextTokenIs(End)]));
      assert console == c0 + closing.lines;
      o := Require([End]);
      ghost var end := Expect(f, body.pos, [End], true);
      Extend(c0, closing, end);
      if o.Fail? {
        ProgramCases(f, p0, start, body, end, end);
        return;
      }
      assert console == c0 + AndThen(closing, end).lines;
      r := Match([EndFile], true, false);
      ghost var eof := Expect(f, end.pos, [EndFile], false);
      Extend(c0, AndThen(closing, end), eof);
      ProgramCases(f, p0, start, body, end, eof);
      if r.Err? {
        o := Fail(r.error);
        return;
      }
      assert eof.lines == [];
      assert console == c0 + AndThen(AndThen(closing, end), eof).lines;
      console := console + [Exit(ProgramRule)];
      Extend(c0, AndThen(AndThen(closing, end), eof), Parsed(Pass, eof.pos, [Exit(ProgramRule)]));
    }

    /**
     * The loop of `parseProgram`: until END, step over the lookahead and
     * parse statements; END-FILE first is an error.
     */
    method Segments() returns (o: Outcome)
      requires Valid()
      modifies this, lexer
      ensures Follows(o, old(console), ProgramLoop(f, old(pos)))
    {
      ghost var p0, cm := pos, console;
      ghost var acc := Parsed(Pass, p0, []);
      ghost var done := acc;
      o := Pass;
      while true
        invariant Valid() && o == Pass && p0 <= pos
        invariant console == cm + acc.lines && acc.outcome == Pass && acc.pos == pos
        invariant AndThen(acc, ProgramLoop(f, pos)) == ProgramLoop(f, p0)
        decreases |f.tokens| - pos
      {
        ghost var q := pos;
        var atEnd := Match([End], false, false);
        if atEnd == Ok(true) {
          ProgramLoopCases(f, q, acc, acc);
          done := acc;
          assert done == ProgramLoop(f, p0) && Follows(o, cm, done);
          break;
        }
        var atEof := Match([EndFile], false, false);
        if atEof == Ok(true) {
          o := Fail(ParseErrorOf(UnexpectedEnd));
          ProgramLoopCases(f, q, acc, acc);
          done := AndThen(acc, Parsed(o, q, []));
          assert done == ProgramLoop(f, p0) && Follows(o, cm, done);
          break;
        }
        o := AdvanceToken();
        ghost var a := Advance(f, q);
        Extend(cm, acc, a);
        if o.Fail? {
          ProgramLoopCases(f, q, a, a);
          done := AndThen(acc, a);
          assert done == ProgramLoop(f, p0) && Follows(o, cm, done);
          break;
        }
        o := ParseStatements();
        ghost var s := Descent.ParseStatements(f, a.pos);
        ProgramLoopCases(f, q, a, s);
        Extend(cm, AndThen(acc, a), s);
        AndThenAssoc(acc, a, s);
        if o.Fail? {
          done := AndThen(AndThen(acc, a), s);
          assert done == ProgramLoop(f, p0) && Follows(o, cm, done);
          break;
        }
        AndThenAssoc(acc, AndThen(a, s), ProgramLoop(f, s.pos));
        AndThenAssoc(AndThen(acc, a), s, ProgramLoop(f, s.pos));
        acc := AndThen(AndThen(acc, a), s);
      }
      assert done == ProgramLoop(f, p0);
      assert Follows(o, cm, done);
    }
  }
}
