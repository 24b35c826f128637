/**
 * What the recursive descent accepts and writes: every parsing function
 * succeeds exactly on the token streams that spell a well-formed tree of its
 * rule, consumes exactly that tree's tokens and writes exactly the tree's
 * console lines.
 */
module DescentFacts {
  import opened Tokens
  import opened Scanner
  import opened Descent
  import opened Grammar

  // ----- Spelling -----

  lemma {:induction false} SpellsAppend(f: TokenStream, pos: nat, a: seq<TokenKind>, b: seq<TokenKind>)
    ensures Spells(f, pos, a + b) <==> Spells(f, pos, a) && Spells(f, pos + |a|, b)
    decreases |a|
  {
    if a == [] {
      assert a + b == b;
    } else {
      assert (a + b)[1..] == a[1..] + b;
      SpellsAppend(f, pos + 1, a[1..], b);
    }
  }

  /** The `k`-th spelled kind is the kind of the token `k` places on. */
  lemma {:induction false} SpellsKind(f: TokenStream, pos: nat, kinds: seq<TokenKind>, k: nat)
    requires Spells(f, pos, kinds) && k < |kinds|
    ensures pos + k < |f.tokens| && f.tokens[pos + k].kind == kinds[k]
    decreases k
  {
    if k > 0 {
      SpellsKind(f, pos + 1, kinds[1..], k - 1);
    }
  }

  /** What is spelled lies inside the stream. */
  lemma {:induction false} SpellsInside(f: TokenStream, pos: nat, kinds: seq<TokenKind>)
    requires Spells(f, pos, kinds)
    ensures pos + |kinds| <= |f.tokens|
    decreases |kinds|
  {
    if kinds != [] {
      SpellsInside(f, pos + 1, kinds[1..]);
    }
  }

  /** Splits what is spelled at `pos` into three parts, at `second` and `third`. */
  lemma {:induction false} SpellsThree(f: TokenStream, pos: nat, a: seq<TokenKind>, b: seq<TokenKind>, c: seq<TokenKind>,
                    second: nat, third: nat)
    requires Spells(f, pos, a + b + c) && second == pos + |a| && third == second + |b|
    ensures Spells(f, pos, a) && Spells(f, second, b) && Spells(f, third, c)
  {
    SpellsAppend(f, pos, a + b, c);
    SpellsAppend(f, pos, a, b);
  }

  // ----- Completeness: a tree spelled at the lookahead is parsed whole -----

  lemma {:induction false} VarComplete(f: TokenStream, pos: nat)
    requires InStream(f, pos) && f.tokens[pos].kind in Operands && pos + 1 < |f.tokens|
    ensures ParseVar(f, pos) == Parsed(Pass, pos + 1, VarLines(f, pos))
  {
  }

  lemma {:induction false} TermComplete(f: TokenStream, pos: nat, t: Term, end: nat)
    requires InStream(f, pos) && TermOk(t) && Spells(f, pos, TermYield(t)) && end == pos + |TermYield(t)|
    requires end < |f.tokens|
    ensures ParseTerm(f, pos) == Parsed(Pass, end, TermLines(f, pos, t))
    decreases t
  {
    if t.Atom? {
      AtomJoin(f, pos, t, end);
    } else {
      var close := ParenSplit(f, pos, t, end);
      ExprComplete(f, pos + 1, t.inner, close);
      ParenJoin(f, pos, t, close, end);
    }
  }

  lemma {:induction false} AtomJoin(f: TokenStream, pos: nat, t: Term, end: nat)
    requires InStream(f, pos) && t.Atom? && TermOk(t) && Spells(f, pos, TermYield(t))
    requires end == pos + |TermYield(t)| && end < |f.tokens|
    ensures ParseTerm(f, pos) == Parsed(Pass, end, TermLines(f, pos, t))
  {
    SpellsKind(f, pos, TermYield(t), 0);
    assert ParseTerm(f, pos) == Wrap(TermRule, ParseVar(f, pos));
  }

  /** Where the parts of a parenthesised expression lie. */
  lemma {:induction false} ParenSplit(f: TokenStream, pos: nat, t: Term, end: nat) returns (close: nat)
    requires InStream(f, pos) && t.Paren? && TermOk(t) && Spells(f, pos, TermYield(t))
    requires end == pos + |TermYield(t)| && end < |f.tokens|
    ensures close == pos + 1 + |ExprYield(t.inner)| && end == close + 1
    ensures f.tokens[pos].kind == LeftPar && f.tokens[close].kind == RightPar
    ensures f.tokens[close].kind !in ArithmeticOps
    ensures InStream(f, pos + 1) && ExprOk(t.inner) && Spells(f, pos + 1, ExprYield(t.inner)) && close < |f.tokens|
  {
    var y := ExprYield(t.inner);
    close := pos + 1 + |y|;
    assert TermYield(t) == [LeftPar] + y + [RightPar];
    SpellsThree(f, pos, [LeftPar], y, [RightPar], pos + 1, close);
    SpellsKind(f, pos, TermYield(t), 0);
    SpellsKind(f, pos, TermYield(t), 1 + |y|);
  }

  lemma {:induction false} ParenJoin(f: TokenStream, pos: nat, t: Term, close: nat, end: nat)
    requires InStream(f, pos) && t.Paren? && f.tokens[pos].kind == LeftPar && pos + 1 < |f.tokens|
    requires close == pos + 1 + |ExprYield(t.inner)| && end == close + 1 && end < |f.tokens|
    requires f.tokens[close].kind == RightPar
    requires ParseExpression(f, pos + 1) == Parsed(Pass, close, ExprLines(f, pos + 1, t.inner))
    ensures ParseTerm(f, pos) == Parsed(Pass, end, TermLines(f, pos, t))
  {
    ParenStep(f, pos, close, ExprLines(f, pos + 1, t.inner));
    ParenLines(f, pos, t, close);
  }

  lemma {:induction false} ParenLines(f: TokenStream, pos: nat, t: Term, close: nat)
    requires t.Paren? && close == pos + 1 + |ExprYield(t.inner)| && close + 1 < |f.tokens|
    ensures TermLines(f, pos, t)
      == Nested(TermRule, AnnounceAt(f, pos + 1) + ExprLines(f, pos + 1, t.inner) + AnnounceAt(f, close + 1))
  {
  }

  lemma {:induction false} ParenStep(f: TokenStream, pos: nat, close: nat, inner: seq<Line>)
    requires InStream(f, pos) && f.tokens[pos].kind == LeftPar && pos + 1 < |f.tokens|
    requires ParseExpression(f, pos + 1) == Parsed(Pass, close, inner)
    requires close + 1 < |f.tokens| && f.tokens[close].kind == RightPar
    ensures ParseTerm(f, pos) == Parsed(Pass, close + 1,
      Nested(TermRule, AnnounceAt(f, pos + 1) + inner + AnnounceAt(f, close + 1)))
  {
    var a := Advance(f, pos);
    var x := ParseExpression(f, pos + 1);
    assert ParseTerm(f, pos) == Wrap(TermRule, AndThen(AndThen(a, x), Expect(f, close, [RightPar], true)));
  }

  lemma {:induction false} ExprComplete(f: TokenStream, pos: nat, e: Expr, end: nat)
    requires InStream(f, pos) && ExprOk(e) && Spells(f, pos, ExprYield(e)) && end == pos + |ExprYield(e)|
    requires end < |f.tokens| && f.tokens[end].kind !in ArithmeticOps
    ensures ParseExpression(f, pos) == Parsed(Pass, end, ExprLines(f, pos, e))
    decreases e
  {
    var mid := ExprSplit(f, pos, e, end);
    TermComplete(f, pos, e.head, mid);
    TailComplete(f, mid, e.tail, end);
    ExprJoin(f, pos, e, mid, end);
  }

  /** Where the first term and the tail of an expression lie. */
  lemma {:induction false} ExprSplit(f: TokenStream, pos: nat, e: Expr, end: nat) returns (mid: nat)
    requires InStream(f, pos) && ExprOk(e) && Spells(f, pos, ExprYield(e)) && end == pos + |ExprYield(e)|
    requires end < |f.tokens|
    ensures mid == pos + |TermYield(e.head)| && end == mid + |TailYield(e.tail)|
    ensures TermOk(e.head) && Spells(f, pos, TermYield(e.head)) && mid < |f.tokens|
    ensures InStream(f, mid) && TailOk(e.tail) && Spells(f, mid, TailYield(e.tail))
  {
    mid := pos + |TermYield(e.head)|;
    SpellsAppend(f, pos, TermYield(e.head), TailYield(e.tail));
  }

  lemma {:induction false} ExprJoin(f: TokenStream, pos: nat, e: Expr, mid: nat, end: nat)
    requires InStream(f, pos) && mid == pos + |TermYield(e.head)| && end == pos + |ExprYield(e)| && end < |f.tokens|
    requires ParseTerm(f, pos) == Parsed(Pass, mid, TermLines(f, pos, e.head))
    requires MoreTerms(f, mid) == Parsed(Pass, end, TailLines(f, mid, e.tail))
    ensures ParseExpression(f, pos) == Parsed(Pass, end, ExprLines(f, pos, e))
  {
    ExprStep(f, pos, mid, end, TermLines(f, pos, e.head), TailLines(f, mid, e.tail));
    ExprLinesOf(f, pos, e, mid);
  }

  lemma {:induction false} ExprLinesOf(f: TokenStream, pos: nat, e: Expr, mid: nat)
    requires mid == pos + |TermYield(e.head)| && pos + |ExprYield(e)| < |f.tokens|
    ensures ExprLines(f, pos, e)
      == Nested(ExpressionRule, TermLines(f, pos, e.head) + TailLines(f, mid, e.tail))
  {
  }

  lemma {:induction false} ExprStep(f: TokenStream, pos: nat, mid: nat, end: nat, head: seq<Line>, tail: seq<Line>)
    requires InStream(f, pos)
    requires ParseTerm(f, pos) == Parsed(Pass, mid, head)
    requires MoreTerms(f, mid) == Parsed(Pass, end, tail)
    ensures ParseExpression(f, pos) == Parsed(Pass, end, Nested(ExpressionRule, head + tail))
  {
  }

  lemma {:induction false} TailComplete(f: TokenStream, pos: nat, t: Tail, end: nat)
    requires InStream(f, pos) && TailOk(t) && Spells(f, pos, TailYield(t)) && end == pos + |TailYield(t)|
    requires end < |f.tokens| && f.tokens[end].kind !in ArithmeticOps
    ensures MoreTerms(f, pos) == Parsed(Pass, end, TailLines(f, pos, t))
    decreases t
  {
    if t.NoMore? {
      NoMoreJoin(f, pos, t, end);
    } else {
      var mid := TailSplit(f, pos, t, end);
      TermComplete(f, pos + 1, t.term, mid);
      TailComplete(f, mid, t.rest, end);
      TailJoin(f, pos, t, mid, end);
    }
  }

  lemma {:induction false} NoMoreJoin(f: TokenStream, pos: nat, t: Tail, end: nat)
    requires InStream(f, pos) && t.NoMore? && end == pos + |TailYield(t)|
    requires end < |f.tokens| && f.tokens[end].kind !in ArithmeticOps
    ensures MoreTerms(f, pos) == Parsed(Pass, end, TailLines(f, pos, t))
  {
  }

  /** Where the parts of an operator-term pair lie. */
  lemma {:induction false} TailSplit(f: TokenStream, pos: nat, t: Tail, end: nat) returns (mid: nat)
    requires InStream(f, pos) && TailOk(t) && Spells(f, pos, TailYield(t)) && end == pos + |TailYield(t)|
    requires end < |f.tokens| && t.More?
    ensures mid == pos + 1 + |TermYield(t.term)| && end == mid + |TailYield(t.rest)|
    ensures f.tokens[pos].kind == t.op && t.op in ArithmeticOps
    ensures InStream(f, pos + 1) && TermOk(t.term) && Spells(f, pos + 1, TermYield(t.term)) && mid < |f.tokens|
    ensures InStream(f, mid) && TailOk(t.rest) && Spells(f, mid, TailYield(t.rest))
  {
    mid := pos + 1 + |TermYield(t.term)|;
    assert TailYield(t) == [t.op] + TermYield(t.term) + TailYield(t.rest);
    SpellsThree(f, pos, [t.op], TermYield(t.term), TailYield(t.rest), pos + 1, mid);
    SpellsKind(f, pos, TailYield(t), 0);
  }

  /** An operator-term pair followed by the rest of the tail. */
  lemma {:induction false} TailJoin(f: TokenStream, pos: nat, t: Tail, mid: nat, end: nat)
    requires InStream(f, pos) && t.More? && f.tokens[pos].kind == t.op && t.op in ArithmeticOps
    requires mid == pos + 1 + |TermYield(t.term)| && end == pos + |TailYield(t)| && end < |f.tokens|
    requires ParseTerm(f, pos + 1) == Parsed(Pass, mid, TermLines(f, pos + 1, t.term))
    requires MoreTerms(f, mid) == Parsed(Pass, end, TailLines(f, mid, t.rest))
    ensures MoreTerms(f, pos) == Parsed(Pass, end, TailLines(f, pos, t))
  {
    AdvanceStep(f, pos);
    MoreStep(f, pos, mid, end, AnnounceAt(f, pos + 1), TermLines(f, pos + 1, t.term), TailLines(f, mid, t.rest));
    TailLinesOf(f, pos, t, mid);
  }

  lemma {:induction false} TailLinesOf(f: TokenStream, pos: nat, t: Tail, mid: nat)
    requires t.More? && mid == pos + 1 + |TermYield(t.term)| && pos + |TailYield(t)| < |f.tokens|
    ensures TailLines(f, pos, t) == AnnounceAt(f, pos + 1) + TermLines(f, pos + 1, t.term) + TailLines(f, mid, t.rest)
  {
  }

  lemma {:induction false} MoreStep(f: TokenStream, pos: nat, mid: nat, end: nat, shown: seq<Line>, term: seq<Line>, rest: seq<Line>)
    requires InStream(f, pos) && f.tokens[pos].kind in ArithmeticOps && pos + 1 < |f.tokens|
    requires Advance(f, pos) == Parsed(Pass, pos + 1, shown)
    requires ParseTerm(f, pos + 1) == Parsed(Pass, mid, term)
    requires MoreTerms(f, mid) == Parsed(Pass, end, rest)
    ensures MoreTerms(f, pos) == Parsed(Pass, end, shown + term + rest)
  {
    MoreUnfold(f, pos, Parsed(Pass, pos + 1, shown), Parsed(Pass, mid, term));
  }

  /** `MoreTerms` on an operator that is stepped over as `a` and whose term parses as `t`. */
  lemma {:induction false} MoreUnfold(f: TokenStream, pos: nat, a: Parsed, t: Parsed)
    requires InStream(f, pos) && f.tokens[pos].kind in ArithmeticOps
    requires Advance(f, pos) == a && a.outcome.Pass?
    requires ParseTerm(f, a.pos) == t && t.outcome.Pass?
    ensures MoreTerms(f, pos) == AndThen(AndThen(a, t), MoreTerms(f, t.pos))
  {
  }

  /** Stepping over a token that is not the last one. */
  lemma {:induction false} AdvanceStep(f: TokenStream, pos: nat)
    requires InStream(f, pos) && f.tokens[pos].kind != EndFile && pos + 1 < |f.tokens|
    ensures Advance(f, pos) == Parsed(Pass, pos + 1, AnnounceAt(f, pos + 1))
  {
  }

  /** A matched lookahead that is not the last token is replaced by the next one. */
  lemma {:induction false} ExpectStep(f: TokenStream, pos: nat, expected: seq<TokenKind>)
    requires InStream(f, pos) && f.tokens[pos].kind in expected && EndFile !in expected && pos + 1 < |f.tokens|
    ensures Expect(f, pos, expected, true) == Parsed(Pass, pos + 1, AnnounceAt(f, pos + 1))
  {
    AdvanceStep(f, pos);
  }

  // ----- Logic -----

  lemma {:induction false} LogicComplete(f: TokenStream, pos: nat)
    requires InStream(f, pos) && pos + 3 < |f.tokens|
    requires f.tokens[pos].kind == Id && f.tokens[pos + 1].kind in Relations && f.tokens[pos + 2].kind in Operands
    ensures ParseLogic(f, pos) == Parsed(Pass, pos + 3, LogicLines(f, pos))
  {
    ExpectStep(f, pos, [Id]);
    ExpectStep(f, pos + 1, Relations);
    VarComplete(f, pos + 2);
    LogicStep(f, pos, AnnounceAt(f, pos + 1), AnnounceAt(f, pos + 2), VarLines(f, pos + 2));
  }

  lemma {:induction false} LogicStep(f: TokenStream, pos: nat, a: seq<Line>, b: seq<Line>, v: seq<Line>)
    requires InStream(f, pos) && pos + 3 < |f.tokens|
    requires Expect(f, pos, [Id], true) == Parsed(Pass, pos + 1, a)
    requires Expect(f, pos + 1, Relations, true) == Parsed(Pass, pos + 2, b)
    requires ParseVar(f, pos + 2) == Parsed(Pass, pos + 3, v)
    ensures ParseLogic(f, pos) == Parsed(Pass, pos + 3, Nested(LogicRule, a + b + v))
  {
  }

  // ----- Statements -----

  /** A well-formed statement is parsed whole, with its lines. */
  lemma {:induction false} StmtComplete(f: TokenStream, pos: nat, s: Stmt, end: nat)
    requires InStream(f, pos) && StmtOk(s) && Spells(f, pos, StmtYield(s)) && end == pos + |StmtYield(s)|
    requires end < |f.tokens|
    ensures ParseStatement(f, pos) == Parsed(Pass, end, StmtLines(f, pos, s))
    decreases s, 1
  {
    match s
    case AssignStmt(e) =>
      AssignSplit(f, pos, s, end);
      AssignComplete(f, pos, e, end);
      StatementOfAssign(f, pos, ParseAssign(f, pos));
    case LoopStmt(_, _, body) =>
      LoopSplit(f, pos, s, end);
      LoopComplete(f, pos, body, end);
      StatementOfLoop(f, pos, ParseLoop(f, pos));
    case IfStmt(_, body) =>
      IfSplit(f, pos, s, end);
      IfComplete(f, pos, body, end);
      StatementOfIf(f, pos, ParseIf(f, pos));
  }

  /** Where the parts of an assignment lie. */
  lemma {:induction false} AssignSplit(f: TokenStream, pos: nat, s: Stmt, end: nat)
    requires InStream(f, pos) && s.AssignStmt? && StmtOk(s) && Spells(f, pos, StmtYield(s))
    requires end == pos + |StmtYield(s)| && end < |f.tokens|
    ensures end == pos + 3 + |ExprYield(s.value)|
    ensures f.tokens[pos].kind == Id && f.tokens[pos + 1].kind == Assign && f.tokens[end - 1].kind == Semi
    ensures InStream(f, pos + 2) && ExprOk(s.value) && Spells(f, pos + 2, ExprYield(s.value))
  {
    var y := ExprYield(s.value);
    SpellsThree(f, pos, [Id, Assign], y, [Semi], pos + 2, end - 1);
    SpellsKind(f, pos, [Id, Assign], 0);
    SpellsKind(f, pos, [Id, Assign], 1);
    SpellsKind(f, end - 1, [Semi], 0);
  }

  lemma {:induction false} AssignComplete(f: TokenStream, pos: nat, e: Expr, end: nat)
    requires InStream(f, pos) && end == pos + 3 + |ExprYield(e)| && end < |f.tokens|
    requires f.tokens[pos].kind == Id && f.tokens[pos + 1].kind == Assign && f.tokens[end - 1].kind == Semi
    requires InStream(f, pos + 2) && ExprOk(e) && Spells(f, pos + 2, ExprYield(e))
    ensures ParseAssign(f, pos) == Parsed(Pass, end, AssignLines(f, pos, e))
    decreases e, 3
  {
    ExprComplete(f, pos + 2, e, end - 1);
    AssignExpects(f, pos, end);
    AssignJoin(f, pos, e, end);
  }

  lemma {:induction false} AssignJoin(f: TokenStream, pos: nat, e: Expr, end: nat)
    requires InStream(f, pos) && end == pos + 3 + |ExprYield(e)| && end < |f.tokens|
    requires f.tokens[pos].kind == Id && f.tokens[pos + 1].kind == Assign && f.tokens[end - 1].kind == Semi
    requires ParseExpression(f, pos + 2) == Parsed(Pass, end - 1, ExprLines(f, pos + 2, e))
    requires Expect(f, pos, [Id], true) == Parsed(Pass, pos + 1, AnnounceAt(f, pos + 1))
    requires Expect(f, pos + 1, [Assign], true) == Parsed(Pass, pos + 2, AnnounceAt(f, pos + 2))
    requires Expect(f, end - 1, [Semi], true) == Parsed(Pass, end, AnnounceAt(f, end))
    ensures ParseAssign(f, pos) == Parsed(Pass, end, AssignLines(f, pos, e))
  {
    var a, b := Parsed(Pass, pos + 1, AnnounceAt(f, pos + 1)), Parsed(Pass, pos + 2, AnnounceAt(f, pos + 2));
    var x, c := Parsed(Pass, end - 1, ExprLines(f, pos + 2, e)), Parsed(Pass, end, AnnounceAt(f, end));
    AssignStep(f, pos, a, b, x, c);
    AssignLinesOf(f, pos, e, end, a, b, x, c);
  }

  /** The three tokens `#parseAssign` matches itself. */
  lemma {:induction false} AssignExpects(f: TokenStream, pos: nat, end: nat)
    requires InStream(f, pos) && pos + 3 <= end < |f.tokens|
    requires f.tokens[pos].kind == Id && f.tokens[pos + 1].kind == Assign && f.tokens[end - 1].kind == Semi
    ensures Expect(f, pos, [Id], true) == Parsed(Pass, pos + 1, AnnounceAt(f, pos + 1))
    ensures Expect(f, pos + 1, [Assign], true) == Parsed(Pass, pos + 2, AnnounceAt(f, pos + 2))
    ensures Expect(f, end - 1, [Semi], true) == Parsed(Pass, end, AnnounceAt(f, end))
  {
    ExpectStep(f, pos, [Id]);
    ExpectStep(f, pos + 1, [Assign]);
    ExpectStep(f, end - 1, [Semi]);
  }

  lemma {:induction false} AssignLinesOf(f: TokenStream, pos: nat, e: Expr, end: nat, a: Parsed, b: Parsed, x: Parsed, c: Parsed)
    requires end == pos + 3 + |ExprYield(e)| && end < |f.tokens|
    requires a == Parsed(Pass, pos + 1, AnnounceAt(f, pos + 1)) && b == Parsed(Pass, pos + 2, AnnounceAt(f, pos + 2))
    requires x == Parsed(Pass, end - 1, ExprLines(f, pos + 2, e)) && c == Parsed(Pass, end, AnnounceAt(f, end))
    ensures Wrap(AssignRule, AndThen(AndThen(AndThen(a, b), x), c)) == Parsed(Pass, end, AssignLines(f, pos, e))
  {
  }

  lemma {:induction false} AssignStep(f: TokenStream, pos: nat, a: Parsed, b: Parsed, e: Parsed, c: Parsed)
    requires InStream(f, pos)
    requires Expect(f, pos, [Id], true) == a && a.outcome.Pass? && a.pos == pos + 1
    requires Expect(f, pos + 1, [Assign], true) == b && b.outcome.Pass? && b.pos == pos + 2
    requires ParseExpression(f, pos + 2) == e && e.outcome.Pass?
    requires Expect(f, e.pos, [Semi], true) == c
    ensures ParseAssign(f, pos) == Wrap(AssignRule, AndThen(AndThen(AndThen(a, b), e), c))
  {
  }

  /** `#parseStatement` on an ID: the statement lines around `#parseAssign`'s. */
  lemma {:induction false} StatementOfAssign(f: TokenStream, pos: nat, x: Parsed)
    requires InStream(f, pos) && f.tokens[pos].kind == Id && x == ParseAssign(f, pos) && x.outcome.Pass?
    ensures ParseStatement(f, pos) == Parsed(Pass, x.pos, Nested(StatementRule, x.lines))
  {
  }

  /** The eight tokens `LOOP ( ID = var : var )` from `pos` on. */
  predicate LoopHeadAt(f: TokenStream, pos: nat) {
    && pos + 8 < |f.tokens|
    && f.tokens[pos].kind == Loop && f.tokens[pos + 1].kind == LeftPar && f.tokens[pos + 2].kind == Id
    && f.tokens[pos + 3].kind == Assign && f.tokens[pos + 4].kind in Operands && f.tokens[pos + 5].kind == Colon
    && f.tokens[pos + 6].kind in Operands && f.tokens[pos + 7].kind == RightPar
  }

  /** Where the parts of a loop lie. */
  lemma {:induction false} LoopSplit(f: TokenStream, pos: nat, s: Stmt, end: nat)
    requires InStream(f, pos) && s.LoopStmt? && StmtOk(s) && Spells(f, pos, StmtYield(s))
    requires end == pos + |StmtYield(s)| && end < |f.tokens|
    ensures end == pos + 9 + |BodyYield(s.body)|
    ensures LoopHeadAt(f, pos) && f.tokens[end - 1].kind == EndLoop
    ensures InStream(f, pos + 8) && BodyOk(s.body) && Spells(f, pos + 8, BodyYield(s.body))
  {
    var head := [Loop, LeftPar, Id, Assign, s.from.kind, Colon, s.to.kind, RightPar];
    assert StmtYield(s) == head + BodyYield(s.body) + [EndLoop];
    LoopSplitAt(f, pos, head, BodyYield(s.body), end);
  }

  lemma {:induction false} LoopSplitAt(f: TokenStream, pos: nat, head: seq<TokenKind>, body: seq<TokenKind>, end: nat)
    requires Spells(f, pos, head + body + [EndLoop]) && end == pos + |head| + |body| + 1 && end < |f.tokens|
    requires |head| == 8 && head[0] == Loop && head[1] == LeftPar && head[2] == Id && head[3] == Assign
    requires head[4] in Operands && head[5] == Colon && head[6] in Operands && head[7] == RightPar
    ensures LoopHeadAt(f, pos) && f.tokens[end - 1].kind == EndLoop && Spells(f, pos + 8, body)
  {
    SpellsThree(f, pos, head, body, [EndLoop], pos + 8, end - 1);
    LoopHeadSpelled(f, pos, head);
    SpellsKind(f, end - 1, [EndLoop], 0);
  }

  lemma {:induction false} LoopHeadSpelled(f: TokenStream, pos: nat, head: seq<TokenKind>)
    requires Spells(f, pos, head) && |head| == 8 && pos + 8 < |f.tokens|
    requires head[0] == Loop && head[1] == LeftPar && head[2] == Id && head[3] == Assign && head[4] in Operands
    requires head[5] == Colon && head[6] in Operands && head[7] == RightPar
    ensures LoopHeadAt(f, pos)
  {
    SpellsKind(f, pos, head, 0);
    SpellsKind(f, pos, head, 1);
    SpellsKind(f, pos, head, 2);
    SpellsKind(f, pos, head, 3);
    SpellsKind(f, pos, head, 4);
    SpellsKind(f, pos, head, 5);
    SpellsKind(f, pos, head, 6);
    SpellsKind(f, pos, head, 7);
  }

  lemma {:induction false} LoopComplete(f: TokenStream, pos: nat, body: Body, end: nat)
    requires InStream(f, pos) && end == pos + 9 + |BodyYield(body)| && end < |f.tokens|
    requires LoopHeadAt(f, pos) && f.tokens[end - 1].kind == EndLoop
    requires InStream(f, pos + 8) && BodyOk(body) && Spells(f, pos + 8, BodyYield(body))
    ensures ParseLoop(f, pos) == Parsed(Pass, end, LoopLines(f, pos, body))
    decreases body, 3
  {
    assert f.tokens[end - 1].kind in BlockEnds by { assert BlockEnds[0] == EndLoop; }
    StatementsComplete(f, pos + 8, body, end - 1);
    LoopJoin(f, pos, body, end);
  }

  lemma {:induction false} LoopJoin(f: TokenStream, pos: nat, body: Body, end: nat)
    requires InStream(f, pos) && end == pos + 9 + |BodyYield(body)| && end < |f.tokens|
    requires LoopHeadAt(f, pos) && f.tokens[end - 1].kind == EndLoop
    requires ParseStatements(f, pos + 8) == Parsed(Pass, end - 1, BodyLines(f, pos + 8, body))
    ensures ParseLoop(f, pos) == Parsed(Pass, end, LoopLines(f, pos, body))
  {
    LoopBlock(f, pos, body, end);
    LoopClose(f, pos, body, end, LoopBody(f, pos));
  }

  /** What `#parseLoop` reads between its console lines, for a body that parses. */
  lemma {:induction false} LoopBlock(f: TokenStream, pos: nat, body: Body, end: nat)
    requires InStream(f, pos) && end == pos + 9 + |BodyYield(body)| && end < |f.tokens|
    requires LoopHeadAt(f, pos) && f.tokens[end - 1].kind == EndLoop
    requires ParseStatements(f, pos + 8) == Parsed(Pass, end - 1, BodyLines(f, pos + 8, body))
    ensures LoopBody(f, pos) == AndThen(AndThen(AndThen(Parsed(Pass, pos + 7, LoopHeadLines(f, pos)), Stepped(f, pos + 8)),
      Parsed(Pass, end - 1, BodyLines(f, pos + 8, body))), Stepped(f, end))
  {
    var head := LoopHeadLines(f, pos);
    LoopHeadOf(f, pos, head);
    BlockComplete(f, Parsed(Pass, pos + 7, head), RightPar, EndLoop, end - 1, BodyLines(f, pos + 8, body));
  }

  /** `#parseLoop`'s lines, once what it reads between them is known. */
  lemma {:induction false} LoopClose(f: TokenStream, pos: nat, body: Body, end: nat, x: Parsed)
    requires InStream(f, pos) && f.tokens[pos].kind == Loop && end == pos + 9 + |BodyYield(body)| && end < |f.tokens|
    requires x == LoopBody(f, pos)
    requires x == AndThen(AndThen(AndThen(Parsed(Pass, pos + 7, LoopHeadLines(f, pos)), Stepped(f, pos + 8)),
      Parsed(Pass, end - 1, BodyLines(f, pos + 8, body))), Stepped(f, end))
    ensures ParseLoop(f, pos) == Parsed(Pass, end, LoopLines(f, pos, body))
  {
    LoopLinesOf(f, pos, body, end, LoopHeadLines(f, pos), Parsed(Pass, pos + 7, LoopHeadLines(f, pos)),
      Parsed(Pass, end - 1, BodyLines(f, pos + 8, body)));
    LoopWrap(f, pos, x);
  }

  /** `#parseLoop`'s two console lines around what it reads. */
  lemma {:induction false} LoopWrap(f: TokenStream, pos: nat, x: Parsed)
    requires InStream(f, pos) && f.tokens[pos].kind == Loop && x == LoopBody(f, pos)
    ensures ParseLoop(f, pos) == Wrap(LoopRule, x)
  {
  }

  lemma {:induction false} LoopHeadOf(f: TokenStream, pos: nat, head: seq<Line>)
    requires InStream(f, pos) && LoopHeadAt(f, pos)
    requires head == LoopHeadLines(f, pos)
    ensures LoopBody(f, pos) == Block(f, Parsed(Pass, pos + 7, head), [RightPar], EndLoop)
  {
    LoopHeadExpects(f, pos);
    LoopHead(f, pos, head);
  }

  /** The lookahead moved on to the token at `k`. */
  function Stepped(f: TokenStream, k: nat): Parsed
    requires k < |f.tokens|
  {
    Parsed(Pass, k, AnnounceAt(f, k))
  }

  /** What `#parseLoop` reads before its closing parenthesis. */
  lemma {:induction false} LoopHeadExpects(f: TokenStream, pos: nat)
    requires InStream(f, pos) && LoopHeadAt(f, pos)
    ensures Advance(f, pos) == Stepped(f, pos + 1)
    ensures Expect(f, pos + 1, [LeftPar], true) == Stepped(f, pos + 2)
    ensures Expect(f, pos + 2, [Id], true) == Stepped(f, pos + 3)
    ensures Expect(f, pos + 3, [Assign], true) == Stepped(f, pos + 4)
    ensures ParseVar(f, pos + 4) == Parsed(Pass, pos + 5, VarLines(f, pos + 4))
    ensures Expect(f, pos + 5, [Colon], true) == Stepped(f, pos + 6)
    ensures ParseVar(f, pos + 6) == Parsed(Pass, pos + 7, VarLines(f, pos + 6))
  {
    AdvanceStep(f, pos);
    ExpectStep(f, pos + 1, [LeftPar]);
    ExpectStep(f, pos + 2, [Id]);
    ExpectStep(f, pos + 3, [Assign]);
    VarComplete(f, pos + 4);
    ExpectStep(f, pos + 5, [Colon]);
    VarComplete(f, pos + 6);
  }

  /** `#parseLoop` up to its closing parenthesis. */
  lemma {:induction false} LoopHead(f: TokenStream, pos: nat, head: seq<Line>)
    requires InStream(f, pos) && f.tokens[pos].kind == Loop && pos + 7 < |f.tokens|
    requires Advance(f, pos) == Stepped(f, pos + 1)
    requires Expect(f, pos + 1, [LeftPar], true) == Stepped(f, pos + 2)
    requires Expect(f, pos + 2, [Id], true) == Stepped(f, pos + 3)
    requires Expect(f, pos + 3, [Assign], true) == Stepped(f, pos + 4)
    requires ParseVar(f, pos + 4) == Parsed(Pass, pos + 5, VarLines(f, pos + 4))
    requires Expect(f, pos + 5, [Colon], true) == Stepped(f, pos + 6)
    requires ParseVar(f, pos + 6) == Parsed(Pass, pos + 7, VarLines(f, pos + 6))
    requires head == LoopHeadLines(f, pos)
    ensures LoopBody(f, pos) == Block(f, Parsed(Pass, pos + 7, head), [RightPar], EndLoop)
  {
  }

  /** A block whose statements parse: `open` at `prefix.pos`, `last` at `e`. */
  lemma {:induction false} BlockComplete(f: TokenStream, prefix: Parsed, open: TokenKind, last: TokenKind, e: nat, inner: seq<Line>)
    requires InStream(f, prefix.pos) && prefix.outcome.Pass? && open != EndFile && last != EndFile
    requires prefix.pos < e && e + 1 < |f.tokens| && f.tokens[prefix.pos].kind == open && f.tokens[e].kind == last
    requires ParseStatements(f, prefix.pos + 1) == Parsed(Pass, e, inner)
    ensures Block(f, prefix, [open], last)
      == AndThen(AndThen(AndThen(prefix, Stepped(f, prefix.pos + 1)), Parsed(Pass, e, inner)), Stepped(f, e + 1))
  {
    BlockExpects(f, prefix.pos, open, e, last);
    BlockStep(f, prefix, [open], last, Stepped(f, prefix.pos + 1), Parsed(Pass, e, inner), Stepped(f, e + 1));
  }

  /** The tokens a block matches around its statements: `open` at `q`, `last` at `e`. */
  lemma {:induction false} BlockExpects(f: TokenStream, q: nat, open: TokenKind, e: nat, last: TokenKind)
    requires InStream(f, q) && q < e && e + 1 < |f.tokens| && open != EndFile && last != EndFile
    requires f.tokens[q].kind == open && f.tokens[e].kind == last
    ensures Expect(f, q, [open], true) == Stepped(f, q + 1)
    ensures Expect(f, e, [last], true) == Stepped(f, e + 1)
  {
    ExpectStep(f, q, [open]);
    ExpectStep(f, e, [last]);
  }

  /** `Block` after `prefix`, given how its three parts go. */
  lemma {:induction false} BlockStep(f: TokenStream, prefix: Parsed, close: seq<TokenKind>, last: TokenKind, p: Parsed, s: Parsed, c: Parsed)
    requires InStream(f, prefix.pos) && prefix.outcome.Pass? && EndFile !in close && last != EndFile
    requires Expect(f, prefix.pos, close, true) == p && p.outcome.Pass?
    requires InStream(f, p.pos) && ParseStatements(f, p.pos) == s && s.outcome.Pass?
    requires InStream(f, s.pos) && Expect(f, s.pos, [last], true) == c
    ensures Block(f, prefix, close, last) == AndThen(AndThen(AndThen(prefix, p), s), c)
  {
  }

  lemma {:induction false} LoopLinesOf(f: TokenStream, pos: nat, body: Body, end: nat, head: seq<Line>, prefix: Parsed, inner: Parsed)
    requires end == pos + 9 + |BodyYield(body)| && end < |f.tokens|
    requires head == LoopHeadLines(f, pos)
    requires prefix == Parsed(Pass, pos + 7, head) && inner == Parsed(Pass, end - 1, BodyLines(f, pos + 8, body))
    ensures Wrap(LoopRule, AndThen(AndThen(AndThen(prefix, Stepped(f, pos + 8)), inner), Stepped(f, end)))
      == Parsed(Pass, end, LoopLines(f, pos, body))
  {
  }

  /** `#parseStatement` on LOOP: the statement lines around `#parseLoop`'s. */
  lemma {:induction false} StatementOfLoop(f: TokenStream, pos: nat, x: Parsed)
    requires InStream(f, pos) && f.tokens[pos].kind == Loop && x == ParseLoop(f, pos) && x.outcome.Pass?
    ensures ParseStatement(f, pos) == Parsed(Pass, x.pos, Nested(StatementRule, x.lines))
  {
  }

  /** The six tokens `IF ( ID relation var )` from `pos` on. */
  predicate IfHeadAt(f: TokenStream, pos: nat) {
    && pos + 6 < |f.tokens|
    && f.tokens[pos].kind == If && f.tokens[pos + 1].kind == LeftPar && f.tokens[pos + 2].kind == Id
    && f.tokens[pos + 3].kind in Relations && f.tokens[pos + 4].kind in Operands && f.tokens[pos + 5].kind == RightPar
  }

  /** Where the parts of an if lie. */
  lemma {:induction false} IfSplit(f: TokenStream, pos: nat, s: Stmt, end: nat)
    requires InStream(f, pos) && s.IfStmt? && StmtOk(s) && Spells(f, pos, StmtYield(s))
    requires end == pos + |StmtYield(s)| && end < |f.tokens|
    ensures end == pos + 7 + |BodyYield(s.body)|
    ensures IfHeadAt(f, pos) && f.tokens[end - 1].kind == EndIf
    ensures InStream(f, pos + 6) && BodyOk(s.body) && Spells(f, pos + 6, BodyYield(s.body))
  {
    var head := [If, LeftPar] + LogicYield(s.cond) + [RightPar];
    assert StmtYield(s) == head + BodyYield(s.body) + [EndIf];
    IfSplitAt(f, pos, head, BodyYield(s.body), end);
  }

  lemma {:induction false} IfSplitAt(f: TokenStream, pos: nat, head: seq<TokenKind>, body: seq<TokenKind>, end: nat)
    requires Spells(f, pos, head + body + [EndIf]) && end == pos + |head| + |body| + 1 && end < |f.tokens|
    requires |head| == 6 && head[0] == If && head[1] == LeftPar && head[2] == Id && head[3] in Relations
    requires head[4] in Operands && head[5] == RightPar
    ensures IfHeadAt(f, pos) && f.tokens[end - 1].kind == EndIf && Spells(f, pos + 6, body)
  {
    SpellsThree(f, pos, head, body, [EndIf], pos + 6, end - 1);
    IfHeadSpelled(f, pos, head);
    SpellsKind(f, end - 1, [EndIf], 0);
  }

  lemma {:induction false} IfHeadSpelled(f: TokenStream, pos: nat, head: seq<TokenKind>)
    requires Spells(f, pos, head) && |head| == 6 && pos + 6 < |f.tokens|
    requires head[0] == If && head[1] == LeftPar && head[2] == Id && head[3] in Relations && head[4] in Operands
    requires head[5] == RightPar
    ensures IfHeadAt(f, pos)
  {
    SpellsKind(f, pos, head, 0);
    SpellsKind(f, pos, head, 1);
    SpellsKind(f, pos, head, 2);
    SpellsKind(f, pos, head, 3);
    SpellsKind(f, pos, head, 4);
    SpellsKind(f, pos, head, 5);
  }

  lemma {:induction false} IfComplete(f: TokenStream, pos: nat, body: Body, end: nat)
    requires InStream(f, pos) && end == pos + 7 + |BodyYield(body)| && end < |f.tokens|
    requires IfHeadAt(f, pos) && f.tokens[end - 1].kind == EndIf
    requires InStream(f, pos + 6) && BodyOk(body) && Spells(f, pos + 6, BodyYield(body))
    ensures ParseIf(f, pos) == Parsed(Pass, end, IfLines(f, pos, body))
    decreases body, 3
  {
    assert f.tokens[end - 1].kind in BlockEnds by { assert BlockEnds[1] == EndIf; }
    StatementsComplete(f, pos + 6, body, end - 1);
    IfJoin(f, pos, body, end);
  }

  lemma {:induction false} IfJoin(f: TokenStream, pos: nat, body: Body, end: nat)
    requires InStream(f, pos) && end == pos + 7 + |BodyYield(body)| && end < |f.tokens|
    requires IfHeadAt(f, pos) && f.tokens[end - 1].kind == EndIf
    requires ParseStatements(f, pos + 6) == Parsed(Pass, end - 1, BodyLines(f, pos + 6, body))
    ensures ParseIf(f, pos) == Parsed(Pass, end, IfLines(f, pos, body))
  {
    IfBlock(f, pos, body, end);
    IfClose(f, pos, body, end, IfBody(f, pos));
  }

  /** What `#parseIf` reads between its console lines, for a body that parses. */
  lemma {:induction false} IfBlock(f: TokenStream, pos: nat, body: Body, end: nat)
    requires InStream(f, pos) && end == pos + 7 + |BodyYield(body)| && end < |f.tokens|
    requires IfHeadAt(f, pos) && f.tokens[end - 1].kind == EndIf
    requires ParseStatements(f, pos + 6) == Parsed(Pass, end - 1, BodyLines(f, pos + 6, body))
    ensures IfBody(f, pos) == AndThen(AndThen(AndThen(Parsed(Pass, pos + 5, IfHeadLines(f, pos)), Stepped(f, pos + 6)),
      Parsed(Pass, end - 1, BodyLines(f, pos + 6, body))), Stepped(f, end))
  {
    var head := IfHeadLines(f, pos);
    IfHeadOf(f, pos, head);
    BlockComplete(f, Parsed(Pass, pos + 5, head), RightPar, EndIf, end - 1, BodyLines(f, pos + 6, body));
  }

  /** `#parseIf`'s lines, once what it reads between them is known. */
  lemma {:induction false} IfClose(f: TokenStream, pos: nat, body: Body, end: nat, x: Parsed)
    requires InStream(f, pos) && f.tokens[pos].kind == If && end == pos + 7 + |BodyYield(body)| && end < |f.tokens|
    requires x == IfBody(f, pos)
    requires x == AndThen(AndThen(AndThen(Parsed(Pass, pos + 5, IfHeadLines(f, pos)), Stepped(f, pos + 6)),
      Parsed(Pass, end - 1, BodyLines(f, pos + 6, body))), Stepped(f, end))
    ensures ParseIf(f, pos) == Parsed(Pass, end, IfLines(f, pos, body))
  {
    IfLinesOf(f, pos, body, end, IfHeadLines(f, pos), Parsed(Pass, pos + 5, IfHeadLines(f, pos)),
      Parsed(Pass, end - 1, BodyLines(f, pos + 6, body)));
    IfWrap(f, pos, x);
  }

  /** `#parseIf`'s two console lines around what it reads. */
  lemma {:induction false} IfWrap(f: TokenStream, pos: nat, x: Parsed)
    requires InStream(f, pos) && f.tokens[pos].kind == If && x == IfBody(f, pos)
    ensures ParseIf(f, pos) == Wrap(IfRule, x)
  {
  }

  lemma {:induction false} IfHeadOf(f: TokenStream, pos: nat, head: seq<Line>)
    requires InStream(f, pos) && IfHeadAt(f, pos)
    requires head == IfHeadLines(f, pos)
    ensures IfBody(f, pos) == Block(f, Parsed(Pass, pos + 5, head), [RightPar], EndIf)
  {
    IfHeadExpects(f, pos);
    IfHead(f, pos, head);
  }

  /** What `#parseIf` reads before its closing parenthesis. */
  lemma {:induction false} IfHeadExpects(f: TokenStream, pos: nat)
    requires InStream(f, pos) && IfHeadAt(f, pos)
    ensures Advance(f, pos) == Stepped(f, pos + 1)
    ensures Expect(f, pos + 1, [LeftPar], true) == Stepped(f, pos + 2)
    ensures ParseLogic(f, pos + 2) == Parsed(Pass, pos + 5, LogicLines(f, pos + 2))
  {
    AdvanceStep(f, pos);
    ExpectStep(f, pos + 1, [LeftPar]);
    LogicComplete(f, pos + 2);
  }

  /** `#parseIf` up to its closing parenthesis. */
  lemma {:induction false} IfHead(f: TokenStream, pos: nat, head: seq<Line>)
    requires InStream(f, pos) && f.tokens[pos].kind == If && pos + 5 < |f.tokens|
    requires Advance(f, pos) == Stepped(f, pos + 1)
    requires Expect(f, pos + 1, [LeftPar], true) == Stepped(f, pos + 2)
    requires ParseLogic(f, pos + 2) == Parsed(Pass, pos + 5, LogicLines(f, pos + 2))
    requires head == IfHeadLines(f, pos)
    ensures IfBody(f, pos) == Block(f, Parsed(Pass, pos + 5, head), [RightPar], EndIf)
  {
  }

  lemma {:induction false} IfLinesOf(f: TokenStream, pos: nat, body: Body, end: nat, head: seq<Line>, prefix: Parsed, inner: Parsed)
    requires end == pos + 7 + |BodyYield(body)| && end < |f.tokens|
    requires head == IfHeadLines(f, pos)
    requires prefix == Parsed(Pass, pos + 5, head) && inner == Parsed(Pass, end - 1, BodyLines(f, pos + 6, body))
    ensures Wrap(IfRule, AndThen(AndThen(AndThen(prefix, Stepped(f, pos + 6)), inner), Stepped(f, end)))
      == Parsed(Pass, end, IfLines(f, pos, body))
  {
  }

  /** `#parseStatement` on IF: the statement lines around `#parseIf`'s. */
  lemma {:induction false} StatementOfIf(f: TokenStream, pos: nat, x: Parsed)
    requires InStream(f, pos) && f.tokens[pos].kind == If && x == ParseIf(f, pos) && x.outcome.Pass?
    ensures ParseStatement(f, pos) == Parsed(Pass, x.pos, Nested(StatementRule, x.lines))
  {
  }

  // ----- Statement lists -----

  /** `#parseStatements` opens with one `Enter < statements >`. */
  lemma {:induction false} StatementsOf(f: TokenStream, pos: nat, x: Parsed)
    requires InStream(f, pos) && x == MoreStatements(f, pos)
    ensures ParseStatements(f, pos) == Parsed(x.outcome, x.pos, [Enter(StatementsRule)] + x.lines)
  {
  }

  /** `#parseStatements` reads a whole body up to the block end after it. */
  lemma {:induction false} StatementsComplete(f: TokenStream, pos: nat, b: Body, end: nat)
    requires InStream(f, pos) && BodyOk(b) && Spells(f, pos, BodyYield(b)) && end == pos + |BodyYield(b)|
    requires end < |f.tokens| && f.tokens[end].kind in BlockEnds
    ensures ParseStatements(f, pos) == Parsed(Pass, end, BodyLines(f, pos, b))
    decreases b, 2
  {
    BodyComplete(f, pos, b, end);
    StatementsOf(f, pos, MoreStatements(f, pos));
  }

  lemma {:induction false} BodyComplete(f: TokenStream, pos: nat, b: Body, end: nat)
    requires InStream(f, pos) && BodyOk(b) && Spells(f, pos, BodyYield(b)) && end == pos + |BodyYield(b)|
    requires end < |f.tokens| && f.tokens[end].kind in BlockEnds
    ensures MoreStatements(f, pos) == Parsed(Pass, end, StatementLines(f, pos, b))
    decreases b, 1
  {
    if b.Empty? {
      assert MoreStatements(f, pos) == Parsed(Pass, pos, []);
    } else {
      var mid := BodySplit(f, pos, b, end);
      StmtComplete(f, pos, b.first, mid);
      BodyComplete(f, mid, b.rest, end);
      BodyJoin(f, pos, b, mid, end);
    }
  }

  /** Where the first statement and the rest of a body lie. */
  lemma {:induction false} BodySplit(f: TokenStream, pos: nat, b: Body, end: nat) returns (mid: nat)
    requires InStream(f, pos) && BodyOk(b) && Spells(f, pos, BodyYield(b)) && end == pos + |BodyYield(b)|
    requires end < |f.tokens| && b.Cons?
    ensures mid == pos + |StmtYield(b.first)| && end == mid + |BodyYield(b.rest)|
    ensures f.tokens[pos].kind !in BlockEnds
    ensures StmtOk(b.first) && Spells(f, pos, StmtYield(b.first)) && mid < |f.tokens|
    ensures InStream(f, mid) && BodyOk(b.rest) && Spells(f, mid, BodyYield(b.rest))
  {
    mid := pos + |StmtYield(b.first)|;
    SpellsAppend(f, pos, StmtYield(b.first), BodyYield(b.rest));
    SpellsKind(f, pos, StmtYield(b.first), 0);
  }

  lemma {:induction false} BodyJoin(f: TokenStream, pos: nat, b: Body, mid: nat, end: nat)
    requires InStream(f, pos) && b.Cons? && f.tokens[pos].kind !in BlockEnds
    requires mid == pos + |StmtYield(b.first)| && end == mid + |BodyYield(b.rest)| && end < |f.tokens|
    requires ParseStatement(f, pos) == Parsed(Pass, mid, StmtLines(f, pos, b.first))
    requires MoreStatements(f, mid) == Parsed(Pass, end, StatementLines(f, mid, b.rest))
    ensures MoreStatements(f, pos) == Parsed(Pass, end, StatementLines(f, pos, b))
  {
    MoreStatementsStep(f, pos, mid, end, StmtLines(f, pos, b.first), StatementLines(f, mid, b.rest));
    StatementLinesOf(f, pos, b, mid);
  }

  lemma {:induction false} StatementLinesOf(f: TokenStream, pos: nat, b: Body, mid: nat)
    requires b.Cons? && mid == pos + |StmtYield(b.first)| && mid + |BodyYield(b.rest)| < |f.tokens|
    ensures pos + |BodyYield(b)| < |f.tokens|
    ensures StatementLines(f, pos, b) == StmtLines(f, pos, b.first) + [Exit(StatementsRule)] + StatementLines(f, mid, b.rest)
  {
  }

  lemma {:induction false} MoreStatementsStep(f: TokenStream, pos: nat, mid: nat, end: nat, s: seq<Line>, rest: seq<Line>)
    requires InStream(f, pos) && f.tokens[pos].kind !in BlockEnds
    requires ParseStatement(f, pos) == Parsed(Pass, mid, s)
    requires MoreStatements(f, mid) == Parsed(Pass, end, rest)
    ensures MoreStatements(f, pos) == Parsed(Pass, end, s + [Exit(StatementsRule)] + rest)
  {
  }

  // ----- Programs -----

  /** The loop of `parseProgram` reads the segments up to END. */
  lemma {:induction false} SegmentsComplete(f: TokenStream, pos: nat, segments: seq<Segment>, end: nat)
    requires InStream(f, pos) && SegmentsOk(segments) && Spells(f, pos, SegmentsYield(segments))
    requires end == pos + |SegmentsYield(segments)| && end < |f.tokens| && f.tokens[end].kind == End
    ensures ProgramLoop(f, pos) == Parsed(Pass, end, SegmentsLines(f, pos, segments))
    decreases |segments|
  {
    if segments == [] {
      LoopAtEnd(f, pos);
    } else {
      var mid := SegmentSplit(f, pos, segments, end);
      StatementsComplete(f, pos + 1, segments[0].body, mid);
      SegmentsComplete(f, mid, segments[1..], end);
      SegmentJoin(f, pos, segments, mid, end, Pass);
    }
  }

  /**
   * END-FILE where END should follow the segments: the loop reads every
   * segment, then fails at END-FILE with the unexpected-end error.
   */
  lemma {:induction false} SegmentsRunOut(f: TokenStream, pos: nat, segments: seq<Segment>, end: nat)
    requires InStream(f, pos) && SegmentsOk(segments) && Spells(f, pos, SegmentsYield(segments))
    requires end == pos + |SegmentsYield(segments)| && end < |f.tokens| && f.tokens[end].kind == EndFile
    ensures ProgramLoop(f, pos) ==
      Parsed(Fail(ErrorAt(f, end, UnexpectedEnd)), end, SegmentsLines(f, pos, segments))
    decreases |segments|
  {
    if segments == [] {
      LoopAtEndFile(f, pos);
    } else {
      var mid := SegmentSplit(f, pos, segments, end);
      StatementsComplete(f, pos + 1, segments[0].body, mid);
      SegmentsRunOut(f, mid, segments[1..], end);
      SegmentJoin(f, pos, segments, mid, end, Fail(ErrorAt(f, end, UnexpectedEnd)));
    }
  }

  /** At END-FILE the loop of `parseProgram` fails at once. */
  lemma {:induction false} LoopAtEndFile(f: TokenStream, pos: nat)
    requires InStream(f, pos) && f.tokens[pos].kind == EndFile
    ensures ProgramLoop(f, pos) == Parsed(Fail(ErrorAt(f, pos, UnexpectedEnd)), pos, [])
  {
  }

  /** At END the loop of `parseProgram` stops at once. */
  lemma {:induction false} LoopAtEnd(f: TokenStream, pos: nat)
    requires InStream(f, pos) && f.tokens[pos].kind == End
    ensures ProgramLoop(f, pos) == Parsed(Pass, pos, [])
  {
  }

  /** Where the first segment and the rest lie. */
  lemma {:induction false} SegmentSplit(f: TokenStream, pos: nat, segments: seq<Segment>, end: nat) returns (mid: nat)
    requires InStream(f, pos) && SegmentsOk(segments) && Spells(f, pos, SegmentsYield(segments))
    requires end == pos + |SegmentsYield(segments)| && end < |f.tokens| && f.tokens[end].kind in [End, EndFile]
    requires segments != []
    ensures mid == pos + 1 + |BodyYield(segments[0].body)| && end == mid + |SegmentsYield(segments[1..])|
    ensures f.tokens[pos].kind != End && f.tokens[pos].kind != EndFile && f.tokens[mid].kind in BlockEnds
    ensures InStream(f, pos + 1) && BodyOk(segments[0].body) && Spells(f, pos + 1, BodyYield(segments[0].body))
    ensures InStream(f, mid) && SegmentsOk(segments[1..]) && Spells(f, mid, SegmentsYield(segments[1..]))
  {
    var first, rest := segments[0], segments[1..];
    var b, r := BodyYield(first.body), SegmentsYield(rest);
    mid := pos + 1 + |b|;
    SegmentsOkFirst(segments);
    SegmentsYieldFirst(segments);
    SpellsOpened(f, pos, first.opener, b, r);
    NextOpener(f, mid, rest, end);
  }

  lemma {:induction false} SegmentsOkFirst(segments: seq<Segment>)
    requires SegmentsOk(segments) && segments != []
    ensures segments[0].opener != End && segments[0].opener != EndFile && BodyOk(segments[0].body)
    ensures SegmentsOk(segments[1..]) && (segments[1..] != [] ==> segments[1..][0].opener in [EndLoop, EndIf])
  {
  }

  lemma {:induction false} SegmentsYieldFirst(segments: seq<Segment>)
    requires segments != []
    ensures SegmentsYield(segments) == [segments[0].opener] + BodyYield(segments[0].body) + SegmentsYield(segments[1..])
  {
  }

  /** A token, then `body`, then `rest`. */
  lemma {:induction false} SpellsOpened(f: TokenStream, pos: nat, opener: TokenKind, body: seq<TokenKind>, rest: seq<TokenKind>)
    requires Spells(f, pos, [opener] + body + rest)
    ensures pos < |f.tokens| && f.tokens[pos].kind == opener
    ensures Spells(f, pos + 1, body) && Spells(f, pos + 1 + |body|, rest)
  {
    SpellsThree(f, pos, [opener], body, rest, pos + 1, pos + 1 + |body|);
    SpellsKind(f, pos, [opener], 0);
  }

  /** After a segment comes END (or END-FILE) or the opener of the next segment. */
  lemma {:induction false} NextOpener(f: TokenStream, mid: nat, rest: seq<Segment>, end: nat)
    requires Spells(f, mid, SegmentsYield(rest)) && end == mid + |SegmentsYield(rest)| && end < |f.tokens|
    requires f.tokens[end].kind in [End, EndFile] && (rest != [] ==> rest[0].opener in [EndLoop, EndIf])
    ensures f.tokens[mid].kind in BlockEnds
  {
    if rest != [] {
      SpellsKind(f, mid, SegmentsYield(rest), 0);
    }
  }

  /** A segment followed by the rest of the loop, which ends with `o`. */
  lemma {:induction false} SegmentJoin(f: TokenStream, pos: nat, segments: seq<Segment>, mid: nat, end: nat, o: Outcome)
    requires InStream(f, pos) && segments != [] && f.tokens[pos].kind != End && f.tokens[pos].kind != EndFile
    requires mid == pos + 1 + |BodyYield(segments[0].body)| && end == mid + |SegmentsYield(segments[1..])|
    requires end < |f.tokens|
    requires ParseStatements(f, pos + 1) == Parsed(Pass, mid, BodyLines(f, pos + 1, segments[0].body))
    requires ProgramLoop(f, mid) == Parsed(o, end, SegmentsLines(f, mid, segments[1..]))
    ensures ProgramLoop(f, pos) == Parsed(o, end, SegmentsLines(f, pos, segments))
  {
    AdvanceStep(f, pos);
    SegmentStep(f, pos, mid, end, AnnounceAt(f, pos + 1), BodyLines(f, pos + 1, segments[0].body), SegmentsLines(f, mid, segments[1..]), o);
    SegmentsLinesOf(f, pos, segments, mid);
  }

  /** One pass of the loop of `parseProgram`, given how its statements and the later passes go. */
  lemma {:induction false} SegmentStep(f: TokenStream, pos: nat, mid: nat, end: nat, shown: seq<Line>, body: seq<Line>, rest: seq<Line>, o: Outcome)
    requires InStream(f, pos) && f.tokens[pos].kind != End && f.tokens[pos].kind != EndFile && pos < mid < |f.tokens|
    requires Advance(f, pos) == Parsed(Pass, pos + 1, shown)
    requires ParseStatements(f, pos + 1) == Parsed(Pass, mid, body)
    requires ProgramLoop(f, mid) == Parsed(o, end, rest)
    ensures ProgramLoop(f, pos) == Parsed(o, end, shown + body + rest)
  {
    ProgramLoopStep(f, pos, Parsed(Pass, pos + 1, shown), Parsed(Pass, mid, body), Parsed(o, end, rest));
  }

  lemma {:induction false} ProgramLoopStep(f: TokenStream, pos: nat, a: Parsed, s: Parsed, r: Parsed)
    requires InStream(f, pos) && f.tokens[pos].kind != End && f.tokens[pos].kind != EndFile
    requires Advance(f, pos) == a && a.outcome.Pass?
    requires ParseStatements(f, a.pos) == s && s.outcome.Pass?
    requires ProgramLoop(f, s.pos) == r
    ensures ProgramLoop(f, pos) == AndThen(AndThen(a, s), r)
  {
  }

  lemma {:induction false} SegmentsLinesOf(f: TokenStream, pos: nat, segments: seq<Segment>, mid: nat)
    requires segments != [] && mid == pos + 1 + |BodyYield(segments[0].body)|
    requires mid + |SegmentsYield(segments[1..])| < |f.tokens|
    ensures pos + |SegmentsYield(segments)| < |f.tokens|
    ensures SegmentsLines(f, pos, segments)
      == AnnounceAt(f, pos + 1) + BodyLines(f, pos + 1, segments[0].body) + SegmentsLines(f, mid, segments[1..])
  {
    SegmentsYieldFirst(segments);
  }

  /** Where the parts of a program lie: the stream ends right after END. */
  lemma {:induction false} ProgramSplit(f: TokenStream, p: Program)
    requires WellFormedStream(f) && ProgramOk(p) && Spells(f, 0, ProgramYield(p))
    ensures |SegmentsYield(p.segments)| + 2 == |f.tokens|
    ensures f.tokens[0].kind == Start && Spells(f, 0, SegmentsYield(p.segments))
    ensures f.tokens[|SegmentsYield(p.segments)|].kind == End
    ensures f.tokens[|SegmentsYield(p.segments)| + 1].kind == EndFile
  {
    var q := |SegmentsYield(p.segments)|;
    SpellsAppend(f, 0, SegmentsYield(p.segments), [End, EndFile]);
    SpellsKind(f, q, [End, EndFile], 0);
    SpellsKind(f, q, [End, EndFile], 1);
    SpellsKind(f, 0, SegmentsYield(p.segments), 0);
  }

  /** A well-formed program spelled by the whole stream is parsed whole, with its lines. */
  lemma {:induction false} ProgramComplete(f: TokenStream, p: Program)
    requires WellFormedStream(f) && ProgramOk(p) && Spells(f, 0, ProgramYield(p))
    ensures |SegmentsYield(p.segments)| + 2 == |f.tokens|
    ensures ParseProgram(f, 0) == Parsed(Pass, |f.tokens| - 1, ProgramLines(f, p))
  {
    var q := |SegmentsYield(p.segments)|;
    ProgramSplit(f, p);
    SegmentsComplete(f, 0, p.segments, q);
    ProgramExpects(f, q);
    ProgramJoin(f, p, q);
  }

  /** The three matches of `parseProgram`: START kept, END stepped over, END-FILE kept. */
  lemma {:induction false} ProgramExpects(f: TokenStream, q: nat)
    requires WellFormedStream(f) && q + 2 == |f.tokens| && f.tokens[0].kind == Start
    requires f.tokens[q].kind == End && f.tokens[q + 1].kind == EndFile
    ensures Expect(f, 0, [Start], false) == Parsed(Pass, 0, [])
    ensures Expect(f, q, [End], true) == Stepped(f, q + 1)
    ensures Expect(f, q + 1, [EndFile], false) == Parsed(Pass, q + 1, [])
  {
    ExpectStep(f, q, [End]);
  }

  lemma {:induction false} ProgramJoin(f: TokenStream, p: Program, q: nat)
    requires WellFormedStream(f) && q == |SegmentsYield(p.segments)| && q + 2 == |f.tokens|
    requires ProgramLoop(f, 0) == Parsed(Pass, q, SegmentsLines(f, 0, p.segments))
    requires Expect(f, 0, [Start], false) == Parsed(Pass, 0, [])
    requires Expect(f, q, [End], true) == Stepped(f, q + 1)
    requires Expect(f, q + 1, [EndFile], false) == Parsed(Pass, q + 1, [])
    ensures ParseProgram(f, 0) == Parsed(Pass, q + 1, ProgramLines(f, p))
  {
    var closing := [NextTokenIs(f.tokens[0].kind)] + [Enter(ProgramRule)] + SegmentsLines(f, 0, p.segments)
      + [NextTokenIs(End)];
    assert closing + AnnounceAt(f, q + 1) + [] == closing + AnnounceAt(f, q + 1);
  }
}
