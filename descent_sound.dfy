/**
 * The converse of `DescentFacts`: whenever a parsing function succeeds, the
 * tokens it stepped over spell a well-formed tree of its rule.  With the
 * completeness lemmas this makes `parseProgram` succeed on exactly the
 * streams that spell a well-formed program, and its console lines exactly
 * that program's lines.
 */
module DescentSound {
  import opened Tokens
  import opened Scanner
  import opened Descent
  import opened Grammar
  import opened DescentFacts

  // ----- Spelling, put together -----

  lemma {:induction false} SpellsJoin(f: TokenStream, pos: nat, a: seq<TokenKind>, b: seq<TokenKind>, mid: nat)
    requires Spells(f, pos, a) && mid == pos + |a| && Spells(f, mid, b)
    ensures Spells(f, pos, a + b)
  {
    SpellsAppend(f, pos, a, b);
  }

  /** A token, then `a`, then `b`. */
  lemma {:induction false} SpellsLed(f: TokenStream, pos: nat, k: TokenKind, a: seq<TokenKind>, b: seq<TokenKind>, mid: nat)
    requires pos < |f.tokens| && f.tokens[pos].kind == k
    requires Spells(f, pos + 1, a) && mid == pos + 1 + |a| && Spells(f, mid, b)
    ensures Spells(f, pos, [k] + a + b)
  {
    SpellsJoin(f, pos + 1, a, b, mid);
    assert ([k] + a + b)[1..] == a + b;
  }

  /** `a`, then one token. */
  lemma {:induction false} SpellsClosed(f: TokenStream, pos: nat, a: seq<TokenKind>, k: TokenKind, last: nat)
    requires Spells(f, pos, a) && last == pos + |a| && last < |f.tokens| && f.tokens[last].kind == k
    ensures Spells(f, pos, a + [k])
  {
    SpellsJoin(f, pos, a, [k], last);
  }

  // ----- Terms and expressions -----

  /** A term that `parseTerm` accepts is there, and it ends where the parser stops. */
  lemma {:induction false} TermSound(f: TokenStream, pos: nat) returns (t: Term)
    requires InStream(f, pos) && ParseTerm(f, pos).outcome.Pass?
    ensures TermOk(t) && Spells(f, pos, TermYield(t)) && ParseTerm(f, pos).pos == pos + |TermYield(t)|
    decreases |f.tokens| - pos, 1
  {
    if f.tokens[pos].kind == LeftPar {
      var close := ParenPass(f, pos);
      var e := ExprSound(f, pos + 1);
      t := Paren(e);
      SpellsLed(f, pos, LeftPar, ExprYield(e), [RightPar], close);
    } else {
      AtomPass(f, pos);
      t := Atom(Var(f.tokens[pos].kind));
    }
  }

  lemma {:induction false} AtomPass(f: TokenStream, pos: nat)
    requires InStream(f, pos) && f.tokens[pos].kind != LeftPar && ParseTerm(f, pos).outcome.Pass?
    ensures f.tokens[pos].kind in Operands && ParseTerm(f, pos).pos == pos + 1
  {
    assert ParseTerm(f, pos) == Wrap(TermRule, ParseVar(f, pos));
  }

  /** What a parenthesised term that `parseTerm` accepts is made of. */
  lemma {:induction false} ParenPass(f: TokenStream, pos: nat) returns (close: nat)
    requires InStream(f, pos) && f.tokens[pos].kind == LeftPar && ParseTerm(f, pos).outcome.Pass?
    ensures pos + 1 < |f.tokens| && ParseExpression(f, pos + 1).outcome.Pass?
    ensures close == ParseExpression(f, pos + 1).pos && close < |f.tokens|
    ensures f.tokens[close].kind == RightPar && ParseTerm(f, pos).pos == close + 1
  {
    ParenSteps(f, pos, Advance(f, pos));
    close := ParseExpression(f, pos + 1).pos;
  }

  /** A successful parenthesised term stepped over `(`, read an expression and then `)`. */
  lemma {:induction false} ParenSteps(f: TokenStream, pos: nat, a: Parsed)
    requires InStream(f, pos) && f.tokens[pos].kind == LeftPar && ParseTerm(f, pos).outcome.Pass?
    requires Advance(f, pos) == a
    ensures a.outcome.Pass? && a.pos == pos + 1 && pos + 1 < |f.tokens| && ParseExpression(f, pos + 1).outcome.Pass?
    ensures ParseExpression(f, pos + 1).pos < |f.tokens| && f.tokens[ParseExpression(f, pos + 1).pos].kind == RightPar
    ensures ParseTerm(f, pos).pos == ParseExpression(f, pos + 1).pos + 1
  {
    var e := ParseExpression(f, pos + 1);
    var c := Expect(f, e.pos, [RightPar], true);
    assert ParseTerm(f, pos) == Wrap(TermRule, AndThen(AndThen(a, e), c));
  }

  lemma {:induction false} ExprSound(f: TokenStream, pos: nat) returns (e: Expr)
    requires InStream(f, pos) && ParseExpression(f, pos).outcome.Pass?
    ensures ExprOk(e) && Spells(f, pos, ExprYield(e)) && ParseExpression(f, pos).pos == pos + |ExprYield(e)|
    decreases |f.tokens| - pos, 3
  {
    var mid := ExprPass(f, pos);
    var head := TermSound(f, pos);
    var tail := TailSound(f, mid);
    e := Expr(head, tail);
    SpellsJoin(f, pos, TermYield(head), TailYield(tail), mid);
  }

  lemma {:induction false} ExprPass(f: TokenStream, pos: nat) returns (mid: nat)
    requires InStream(f, pos) && ParseExpression(f, pos).outcome.Pass?
    ensures ParseTerm(f, pos).outcome.Pass? && mid == ParseTerm(f, pos).pos && pos < mid < |f.tokens|
    ensures MoreTerms(f, mid).outcome.Pass? && ParseExpression(f, pos).pos == MoreTerms(f, mid).pos
  {
    mid := ParseTerm(f, pos).pos;
  }

  /** The operator-term pairs the loop of `#parseExpression` accepts. */
  lemma {:induction false} TailSound(f: TokenStream, pos: nat) returns (t: Tail)
    requires InStream(f, pos) && MoreTerms(f, pos).outcome.Pass?
    ensures TailOk(t) && Spells(f, pos, TailYield(t)) && MoreTerms(f, pos).pos == pos + |TailYield(t)|
    decreases |f.tokens| - pos, 2
  {
    if f.tokens[pos].kind in ArithmeticOps {
      var mid := MorePass(f, pos);
      var term := TermSound(f, pos + 1);
      var rest := TailSound(f, mid);
      t := More(f.tokens[pos].kind, term, rest);
      SpellsLed(f, pos, t.op, TermYield(term), TailYield(rest), mid);
    } else {
      t := NoMore;
    }
  }

  lemma {:induction false} MorePass(f: TokenStream, pos: nat) returns (mid: nat)
    requires InStream(f, pos) && f.tokens[pos].kind in ArithmeticOps && MoreTerms(f, pos).outcome.Pass?
    ensures pos + 1 < |f.tokens| && ParseTerm(f, pos + 1).outcome.Pass?
    ensures mid == ParseTerm(f, pos + 1).pos && pos + 1 < mid < |f.tokens|
    ensures MoreTerms(f, mid).outcome.Pass? && MoreTerms(f, pos).pos == MoreTerms(f, mid).pos
  {
    var a := Advance(f, pos);
    assert a.outcome.Pass?;
    mid := ParseTerm(f, pos + 1).pos;
  }

  // ----- Logic -----

  lemma {:induction false} LogicSound(f: TokenStream, pos: nat) returns (l: Logic)
    requires InStream(f, pos) && ParseLogic(f, pos).outcome.Pass?
    ensures LogicOk(l) && Spells(f, pos, LogicYield(l)) && ParseLogic(f, pos).pos == pos + |LogicYield(l)|
  {
    LogicPass(f, pos);
    l := Logic(f.tokens[pos + 1].kind, Var(f.tokens[pos + 2].kind));
    assert Spells(f, pos + 2, [l.operand.kind]);
  }

  lemma {:induction false} LogicPass(f: TokenStream, pos: nat)
    requires InStream(f, pos) && ParseLogic(f, pos).outcome.Pass?
    ensures pos + 3 < |f.tokens| && f.tokens[pos].kind == Id
    ensures f.tokens[pos + 1].kind in Relations && f.tokens[pos + 2].kind in Operands
    ensures ParseLogic(f, pos).pos == pos + 3
  {
    var a := Expect(f, pos, [Id], true);
    assert a.outcome.Pass?;
    var b := Expect(f, pos + 1, Relations, true);
    assert b.outcome.Pass?;
  }

  // ----- Statements -----

  /** A statement that `#parseStatement` accepts is there, and it ends where the parser stops. */
  lemma {:induction false} StmtSound(f: TokenStream, pos: nat) returns (s: Stmt)
    requires InStream(f, pos) && ParseStatement(f, pos).outcome.Pass?
    ensures StmtOk(s) && Spells(f, pos, StmtYield(s)) && ParseStatement(f, pos).pos == pos + |StmtYield(s)|
    decreases |f.tokens| - pos, 5
  {
    StatementPass(f, pos);
    match f.tokens[pos].kind
    case Id => s := AssignSound(f, pos);
    case Loop => s := LoopSound(f, pos);
    case If => s := IfSound(f, pos);
  }

  /** `#parseStatement` succeeds only through one of its three rules. */
  lemma {:induction false} StatementPass(f: TokenStream, pos: nat)
    requires InStream(f, pos) && ParseStatement(f, pos).outcome.Pass?
    ensures f.tokens[pos].kind == Id || f.tokens[pos].kind == Loop || f.tokens[pos].kind == If
    ensures f.tokens[pos].kind == Id ==>
      ParseAssign(f, pos).outcome.Pass? && ParseStatement(f, pos).pos == ParseAssign(f, pos).pos
    ensures f.tokens[pos].kind == Loop ==>
      ParseLoop(f, pos).outcome.Pass? && ParseStatement(f, pos).pos == ParseLoop(f, pos).pos
    ensures f.tokens[pos].kind == If ==>
      ParseIf(f, pos).outcome.Pass? && ParseStatement(f, pos).pos == ParseIf(f, pos).pos
  {
  }

  lemma {:induction false} AssignSound(f: TokenStream, pos: nat) returns (s: Stmt)
    requires InStream(f, pos) && ParseAssign(f, pos).outcome.Pass?
    ensures s.AssignStmt? && StmtOk(s) && Spells(f, pos, StmtYield(s))
    ensures ParseAssign(f, pos).pos == pos + |StmtYield(s)|
    decreases |f.tokens| - pos, 4
  {
    var e, semi := AssignParts(f, pos);
    s := AssignStmt(e);
    AssignSpells(f, pos, e, semi);
  }

  /** The expression a successful `#parseAssign` read, and where its `;` lies. */
  lemma {:induction false} AssignParts(f: TokenStream, pos: nat) returns (e: Expr, semi: nat)
    requires InStream(f, pos) && ParseAssign(f, pos).outcome.Pass?
    ensures pos + 2 < |f.tokens| && f.tokens[pos].kind == Id && f.tokens[pos + 1].kind == Assign
    ensures ExprOk(e) && Spells(f, pos + 2, ExprYield(e)) && semi == pos + 2 + |ExprYield(e)|
    ensures semi < |f.tokens| && f.tokens[semi].kind == Semi && ParseAssign(f, pos).pos == semi + 1
    decreases |f.tokens| - pos, 3
  {
    semi := AssignPass(f, pos);
    e := ExprSound(f, pos + 2);
  }

  lemma {:induction false} AssignSpells(f: TokenStream, pos: nat, e: Expr, semi: nat)
    requires pos + 2 < |f.tokens| && f.tokens[pos].kind == Id && f.tokens[pos + 1].kind == Assign
    requires Spells(f, pos + 2, ExprYield(e)) && semi == pos + 2 + |ExprYield(e)|
    requires semi < |f.tokens| && f.tokens[semi].kind == Semi
    ensures Spells(f, pos, StmtYield(AssignStmt(e))) && |StmtYield(AssignStmt(e))| == semi + 1 - pos
  {
    SpellsClosed(f, pos + 2, ExprYield(e), Semi, semi);
    SpellsLedTwo(f, pos, Id, Assign, ExprYield(e) + [Semi]);
    assert [Id, Assign] + (ExprYield(e) + [Semi]) == StmtYield(AssignStmt(e));
  }

  /** Two tokens, then `rest`. */
  lemma {:induction false} SpellsLedTwo(f: TokenStream, pos: nat, first: TokenKind, second: TokenKind, rest: seq<TokenKind>)
    requires pos + 1 < |f.tokens| && f.tokens[pos].kind == first && f.tokens[pos + 1].kind == second
    requires Spells(f, pos + 2, rest)
    ensures Spells(f, pos, [first, second] + rest)
  {
    assert ([first, second] + rest)[1..] == [second] + rest;
    assert ([second] + rest)[1..] == rest;
  }

  lemma {:induction false} AssignPass(f: TokenStream, pos: nat) returns (semi: nat)
    requires InStream(f, pos) && ParseAssign(f, pos).outcome.Pass?
    ensures pos + 2 < |f.tokens| && f.tokens[pos].kind == Id && f.tokens[pos + 1].kind == Assign
    ensures ParseExpression(f, pos + 2).outcome.Pass? && semi == ParseExpression(f, pos + 2).pos
    ensures semi < |f.tokens| && f.tokens[semi].kind == Semi && ParseAssign(f, pos).pos == semi + 1
  {
    var a := Expect(f, pos, [Id], true);
    var b := if a.outcome.Pass? then Expect(f, a.pos, [Assign], true) else a;
    AssignPassSteps(f, pos, a, b);
    semi := ParseExpression(f, pos + 2).pos;
  }

  /** A successful `#parseAssign` went through all of its steps. */
  lemma {:induction false} AssignPassSteps(f: TokenStream, pos: nat, a: Parsed, b: Parsed)
    requires InStream(f, pos) && ParseAssign(f, pos).outcome.Pass?
    requires Expect(f, pos, [Id], true) == a
    requires a.outcome.Pass? ==> Expect(f, a.pos, [Assign], true) == b
    ensures a.outcome.Pass? && b.outcome.Pass? && pos + 2 < |f.tokens|
    ensures a.pos == pos + 1 && f.tokens[pos].kind == Id && b.pos == pos + 2 && f.tokens[pos + 1].kind == Assign
    ensures ParseExpression(f, pos + 2).outcome.Pass?
    ensures ParseExpression(f, pos + 2).pos < |f.tokens| && f.tokens[ParseExpression(f, pos + 2).pos].kind == Semi
    ensures ParseAssign(f, pos).pos == ParseExpression(f, pos + 2).pos + 1
  {
    var e := ParseExpression(f, pos + 2);
    var c := Expect(f, e.pos, [Semi], true);
    assert ParseAssign(f, pos) == Wrap(AssignRule, AndThen(AndThen(AndThen(a, b), e), c));
  }

  /** What a block that `Block` accepts is made of: `close`, statements, `last`. */
  lemma {:induction false} BlockPass(f: TokenStream, prefix: Parsed, close: seq<TokenKind>, last: TokenKind) returns (e: nat)
    requires InStream(f, prefix.pos) && prefix.outcome.Pass? && EndFile !in close && last != EndFile
    requires Block(f, prefix, close, last).outcome.Pass?
    ensures f.tokens[prefix.pos].kind in close && prefix.pos + 1 < |f.tokens|
    ensures ParseStatements(f, prefix.pos + 1).outcome.Pass? && e == ParseStatements(f, prefix.pos + 1).pos
    ensures e < |f.tokens| && f.tokens[e].kind == last && Block(f, prefix, close, last).pos == e + 1
  {
    var p := Expect(f, prefix.pos, close, true);
    assert p.outcome.Pass?;
    e := ParseStatements(f, prefix.pos + 1).pos;
  }

  lemma {:induction false} LoopSound(f: TokenStream, pos: nat) returns (s: Stmt)
    requires InStream(f, pos) && f.tokens[pos].kind == Loop && ParseLoop(f, pos).outcome.Pass?
    ensures s.LoopStmt? && StmtOk(s) && Spells(f, pos, StmtYield(s))
    ensures ParseLoop(f, pos).pos == pos + |StmtYield(s)|
    decreases |f.tokens| - pos, 4
  {
    var range := LoopHeadPass(f, pos);
    var e := BlockPass(f, range, [RightPar], EndLoop);
    var body := StatementsSound(f, pos + 8);
    s := LoopStmt(Var(f.tokens[pos + 4].kind), Var(f.tokens[pos + 6].kind), body);
    LoopSpells(f, pos, s, e);
  }

  lemma {:induction false} LoopSpells(f: TokenStream, pos: nat, s: Stmt, e: nat)
    requires s.LoopStmt? && pos + 8 < |f.tokens| && f.tokens[pos].kind == Loop
    requires f.tokens[pos + 1].kind == LeftPar && f.tokens[pos + 2].kind == Id && f.tokens[pos + 3].kind == Assign
    requires f.tokens[pos + 4].kind == s.from.kind && f.tokens[pos + 5].kind == Colon
    requires f.tokens[pos + 6].kind == s.to.kind && f.tokens[pos + 7].kind == RightPar
    requires Spells(f, pos + 8, BodyYield(s.body)) && e == pos + 8 + |BodyYield(s.body)|
    requires e < |f.tokens| && f.tokens[e].kind == EndLoop
    ensures Spells(f, pos, StmtYield(s)) && |StmtYield(s)| == e + 1 - pos
  {
    var head := LoopHeadYield(s);
    LoopHeadSpells(f, pos, head);
    SpellsClosed(f, pos + 8, BodyYield(s.body), EndLoop, e);
    SpellsJoin(f, pos, head, BodyYield(s.body) + [EndLoop], pos + 8);
    LoopYieldSplit(s);
  }

  /** The eight kinds of a loop head. */
  function LoopHeadYield(s: Stmt): (head: seq<TokenKind>)
    requires s.LoopStmt?
    ensures |head| == 8 && head[0] == Loop && head[7] == RightPar
  {
    [Loop, LeftPar, Id, Assign, s.from.kind, Colon, s.to.kind, RightPar]
  }

  lemma {:induction false} LoopYieldSplit(s: Stmt)
    requires s.LoopStmt?
    ensures StmtYield(s) == LoopHeadYield(s) + (BodyYield(s.body) + [EndLoop])
  {
  }

  /** The eight kinds of a loop head, read off the tokens. */
  lemma {:induction false} LoopHeadSpells(f: TokenStream, pos: nat, head: seq<TokenKind>)
    requires pos + 8 <= |f.tokens| && |head| == 8 && forall i :: 0 <= i < 8 ==> f.tokens[pos + i].kind == head[i]
    ensures Spells(f, pos, head)
  {
    SpellsRun(f, pos, head);
  }

  /** Kinds read off the tokens one by one are spelled. */
  lemma {:induction false} SpellsRun(f: TokenStream, pos: nat, kinds: seq<TokenKind>)
    requires pos + |kinds| <= |f.tokens| && forall i :: 0 <= i < |kinds| ==> f.tokens[pos + i].kind == kinds[i]
    ensures Spells(f, pos, kinds)
    decreases |kinds|
  {
    if kinds != [] {
      assert f.tokens[pos].kind == kinds[0];
      forall i | 0 <= i < |kinds[1..]|
        ensures f.tokens[pos + 1 + i].kind == kinds[1..][i]
      {
        assert f.tokens[pos + (i + 1)].kind == kinds[i + 1];
      }
      SpellsRun(f, pos + 1, kinds[1..]);
    }
  }

  /** What `#parseLoop` accepts before its closing parenthesis. */
  lemma {:induction false} LoopHeadPass(f: TokenStream, pos: nat) returns (range: Parsed)
    requires InStream(f, pos) && f.tokens[pos].kind == Loop && ParseLoop(f, pos).outcome.Pass?
    ensures pos + 7 < |f.tokens| && f.tokens[pos + 1].kind == LeftPar && f.tokens[pos + 2].kind == Id
    ensures f.tokens[pos + 3].kind == Assign && f.tokens[pos + 4].kind in Operands
    ensures f.tokens[pos + 5].kind == Colon && f.tokens[pos + 6].kind in Operands
    ensures range.outcome.Pass? && range.pos == pos + 7
    ensures Block(f, range, [RightPar], EndLoop).outcome.Pass?
    ensures ParseLoop(f, pos).pos == Block(f, range, [RightPar], EndLoop).pos
  {
    var a := Advance(f, pos);
    assert a.outcome.Pass?;
    var b := Expect(f, a.pos, [LeftPar], true);
    assert b.outcome.Pass?;
    var c := Expect(f, b.pos, [Id], true);
    assert c.outcome.Pass?;
    var d := Expect(f, c.pos, [Assign], true);
    assert d.outcome.Pass?;
    var head := AndThen(AndThen(AndThen(a, b), c), d);
    var v := ParseVar(f, head.pos);
    assert v.outcome.Pass?;
    var e := Expect(f, v.pos, [Colon], true);
    assert e.outcome.Pass?;
    var w := ParseVar(f, e.pos);
    assert w.outcome.Pass?;
    range := AndThen(AndThen(AndThen(head, v), e), w);
  }

  lemma {:induction false} IfSound(f: TokenStream, pos: nat) returns (s: Stmt)
    requires InStream(f, pos) && f.tokens[pos].kind == If && ParseIf(f, pos).outcome.Pass?
    ensures s.IfStmt? && StmtOk(s) && Spells(f, pos, StmtYield(s))
    ensures ParseIf(f, pos).pos == pos + |StmtYield(s)|
    decreases |f.tokens| - pos, 4
  {
    var body, e := IfParts(f, pos);
    var cond := LogicSound(f, pos + 2);
    s := IfStmt(cond, body);
    IfSpells(f, pos, s, e);
  }

  /** The body a successful `#parseIf` read, and where END-IF lies. */
  lemma {:induction false} IfParts(f: TokenStream, pos: nat) returns (body: Body, e: nat)
    requires InStream(f, pos) && f.tokens[pos].kind == If && ParseIf(f, pos).outcome.Pass?
    ensures pos + 6 < |f.tokens| && f.tokens[pos + 1].kind == LeftPar && f.tokens[pos + 5].kind == RightPar
    ensures ParseLogic(f, pos + 2).outcome.Pass?
    ensures BodyOk(body) && Spells(f, pos + 6, BodyYield(body)) && e == pos + 6 + |BodyYield(body)|
    ensures e < |f.tokens| && f.tokens[e].kind == EndIf && ParseIf(f, pos).pos == e + 1
    decreases |f.tokens| - pos, 3
  {
    var range := IfHeadPass(f, pos);
    LogicPass(f, pos + 2);
    e := BlockPass(f, range, [RightPar], EndIf);
    body := StatementsSound(f, pos + 6);
  }

  lemma {:induction false} IfSpells(f: TokenStream, pos: nat, s: Stmt, e: nat)
    requires s.IfStmt? && pos + 6 < |f.tokens| && f.tokens[pos].kind == If && f.tokens[pos + 1].kind == LeftPar
    requires Spells(f, pos + 2, LogicYield(s.cond)) && f.tokens[pos + 5].kind == RightPar
    requires Spells(f, pos + 6, BodyYield(s.body)) && e == pos + 6 + |BodyYield(s.body)|
    requires e < |f.tokens| && f.tokens[e].kind == EndIf
    ensures Spells(f, pos, StmtYield(s)) && |StmtYield(s)| == e + 1 - pos
  {
    var head := [If, LeftPar] + LogicYield(s.cond) + [RightPar];
    IfHeadSpells(f, pos, s.cond, head);
    SpellsClosed(f, pos + 6, BodyYield(s.body), EndIf, e);
    SpellsJoin(f, pos, head, BodyYield(s.body) + [EndIf], pos + 6);
    assert head + (BodyYield(s.body) + [EndIf]) == StmtYield(s);
  }

  lemma {:induction false} IfHeadSpells(f: TokenStream, pos: nat, cond: Logic, head: seq<TokenKind>)
    requires pos + 6 <= |f.tokens| && f.tokens[pos].kind == If && f.tokens[pos + 1].kind == LeftPar
    requires Spells(f, pos + 2, LogicYield(cond)) && f.tokens[pos + 5].kind == RightPar
    requires head == [If, LeftPar] + LogicYield(cond) + [RightPar]
    ensures Spells(f, pos, head)
  {
    SpellsKind(f, pos + 2, LogicYield(cond), 0);
    SpellsKind(f, pos + 2, LogicYield(cond), 1);
    SpellsKind(f, pos + 2, LogicYield(cond), 2);
    SpellsRun(f, pos, head);
  }

  /** What `#parseIf` accepts before its closing parenthesis. */
  lemma {:induction false} IfHeadPass(f: TokenStream, pos: nat) returns (range: Parsed)
    requires InStream(f, pos) && f.tokens[pos].kind == If && ParseIf(f, pos).outcome.Pass?
    ensures pos + 2 < |f.tokens| && f.tokens[pos + 1].kind == LeftPar && ParseLogic(f, pos + 2).outcome.Pass?
    ensures range.outcome.Pass? && range.pos == ParseLogic(f, pos + 2).pos
    ensures Block(f, range, [RightPar], EndIf).outcome.Pass?
    ensures ParseIf(f, pos).pos == Block(f, range, [RightPar], EndIf).pos
  {
    var a := Advance(f, pos);
    assert a.outcome.Pass?;
    var b := Expect(f, a.pos, [LeftPar], true);
    assert b.outcome.Pass?;
    var l := ParseLogic(f, b.pos);
    assert l.outcome.Pass?;
    range := AndThen(AndThen(a, b), l);
  }

  // ----- Statement lists -----

  lemma {:induction false} StatementsSound(f: TokenStream, pos: nat) returns (b: Body)
    requires InStream(f, pos) && ParseStatements(f, pos).outcome.Pass?
    ensures BodyOk(b) && Spells(f, pos, BodyYield(b)) && ParseStatements(f, pos).pos == pos + |BodyYield(b)|
    decreases |f.tokens| - pos, 7
  {
    b := BodySound(f, pos);
  }

  /** The statements the loop of `#parseStatements` accepts, up to a block end. */
  lemma {:induction false} BodySound(f: TokenStream, pos: nat) returns (b: Body)
    requires InStream(f, pos) && MoreStatements(f, pos).outcome.Pass?
    ensures BodyOk(b) && Spells(f, pos, BodyYield(b)) && MoreStatements(f, pos).pos == pos + |BodyYield(b)|
    decreases |f.tokens| - pos, 6
  {
    if Check(f.tokens[pos], BlockEnds) {
      BodyAtEnd(f, pos);
      b := Empty;
    } else {
      var mid := StatementsPass(f, pos);
      var first := StmtSound(f, pos);
      var rest := BodySound(f, mid);
      b := Cons(first, rest);
      BodySpells(f, pos, b, mid);
    }
  }

  lemma {:induction false} BodyAtEnd(f: TokenStream, pos: nat)
    requires InStream(f, pos) && f.tokens[pos].kind in BlockEnds
    ensures MoreStatements(f, pos) == Parsed(Pass, pos, [])
  {
  }

  lemma {:induction false} BodySpells(f: TokenStream, pos: nat, b: Body, mid: nat)
    requires b.Cons? && Spells(f, pos, StmtYield(b.first)) && mid == pos + |StmtYield(b.first)|
    requires Spells(f, mid, BodyYield(b.rest))
    ensures Spells(f, pos, BodyYield(b)) && pos + |BodyYield(b)| == mid + |BodyYield(b.rest)|
  {
    SpellsJoin(f, pos, StmtYield(b.first), BodyYield(b.rest), mid);
  }

  lemma {:induction false} StatementsPass(f: TokenStream, pos: nat) returns (mid: nat)
    requires InStream(f, pos) && f.tokens[pos].kind !in BlockEnds && MoreStatements(f, pos).outcome.Pass?
    ensures ParseStatement(f, pos).outcome.Pass? && mid == ParseStatement(f, pos).pos && pos < mid < |f.tokens|
    ensures MoreStatements(f, mid).outcome.Pass? && MoreStatements(f, pos).pos == MoreStatements(f, mid).pos
  {
    mid := ParseStatement(f, pos).pos;
  }

  // ----- Programs -----

  /**
   * The segments the loop of `parseProgram` accepts from an opener (START,
   * END-LOOP or END-IF) or from END, up to END.
   */
  lemma {:induction false} SegmentsSound(f: TokenStream, pos: nat) returns (segments: seq<Segment>)
    requires InStream(f, pos) && f.tokens[pos].kind in [Start, EndLoop, EndIf, End]
    requires ProgramLoop(f, pos).outcome.Pass?
    ensures SegmentsOk(segments) && Spells(f, pos, SegmentsYield(segments))
    ensures ProgramLoop(f, pos).pos == pos + |SegmentsYield(segments)|
    ensures segments != [] ==> segments[0].opener == f.tokens[pos].kind
    decreases |f.tokens| - pos
  {
    if f.tokens[pos].kind == End {
      segments := [];
    } else {
      var mid := SegmentPass(f, pos);
      var body := StatementsSound(f, pos + 1);
      var rest := SegmentsSound(f, mid);
      segments := [Segment(f.tokens[pos].kind, body)] + rest;
      SegmentsCons(segments);
      SpellsLed(f, pos, segments[0].opener, BodyYield(body), SegmentsYield(rest), mid);
      SegmentsYieldFirst(segments);
    }
  }

  /** One pass of the loop of `parseProgram` that the loop goes on from. */
  lemma {:induction false} SegmentPass(f: TokenStream, pos: nat) returns (mid: nat)
    requires InStream(f, pos) && f.tokens[pos].kind != End && ProgramLoop(f, pos).outcome.Pass?
    ensures f.tokens[pos].kind != EndFile && pos + 1 < |f.tokens|
    ensures ParseStatements(f, pos + 1).outcome.Pass? && mid == ParseStatements(f, pos + 1).pos
    ensures pos < mid < |f.tokens| && f.tokens[mid].kind in [EndLoop, EndIf, End]
    ensures ProgramLoop(f, mid).outcome.Pass? && ProgramLoop(f, pos).pos == ProgramLoop(f, mid).pos
  {
    var a := Advance(f, pos);
    assert a.outcome.Pass?;
    var s := ParseStatements(f, pos + 1);
    assert s.outcome.Pass?;
    mid := s.pos;
    assert MoreStatements(f, pos + 1).pos == mid;
    assert f.tokens[mid].kind in BlockEnds;
  }

  /** The segments built by `SegmentsSound` are well formed. */
  lemma {:induction false} SegmentsCons(segments: seq<Segment>)
    requires segments != [] && segments[0].opener in [Start, EndLoop, EndIf] && BodyOk(segments[0].body)
    requires SegmentsOk(segments[1..])
    requires |segments| > 1 ==> segments[1].opener in [EndLoop, EndIf]
    ensures SegmentsOk(segments)
  {
  }

  // ----- Programs -----

  /** A program that `parseProgram` accepts is spelled by the whole stream. */
  lemma {:induction false} ProgramSound(f: TokenStream) returns (p: Program)
    requires InStream(f, 0) && ParseProgram(f, 0).outcome.Pass?
    ensures ProgramOk(p) && Spells(f, 0, ProgramYield(p))
  {
    var q := ProgramPass(f);
    var segments := SegmentsSound(f, 0);
    p := Program(segments);
    assert segments != [];
    SpellsRun(f, q, [End, EndFile]);
    SpellsJoin(f, 0, SegmentsYield(segments), [End, EndFile], q);
  }

  /** A successful `parseProgram` saw START, ran its loop up to END, then END-FILE. */
  lemma {:induction false} ProgramPass(f: TokenStream) returns (q: nat)
    requires InStream(f, 0) && ParseProgram(f, 0).outcome.Pass?
    ensures f.tokens[0].kind == Start && ProgramLoop(f, 0).outcome.Pass? && q == ProgramLoop(f, 0).pos
    ensures q + 2 == |f.tokens| && f.tokens[q].kind == End && f.tokens[q + 1].kind == EndFile
  {
    var start := Expect(f, 0, [Start], false);
    assert start.outcome.Pass?;
    var body := ProgramLoop(f, 0);
    assert body.outcome.Pass?;
    q := body.pos;
    var end := Expect(f, q, [End], true);
    assert end.outcome.Pass?;
    var eof := Expect(f, q + 1, [EndFile], false);
    assert eof.outcome.Pass?;
  }

  /**
   * `parseProgram` accepts a stream exactly when the stream spells a
   * well-formed program.
   */
  lemma {:induction false} ProgramAccepted(f: TokenStream)
    requires InStream(f, 0)
    ensures ParseProgram(f, 0).outcome.Pass? <==> exists p :: ProgramOk(p) && Spells(f, 0, ProgramYield(p))
  {
    if ParseProgram(f, 0).outcome.Pass? {
      var p := ProgramSound(f);
    }
    if exists p :: ProgramOk(p) && Spells(f, 0, ProgramYield(p)) {
      var p :| ProgramOk(p) && Spells(f, 0, ProgramYield(p));
      ProgramComplete(f, p);
    }
  }

  /**
   * A successful `parseProgram` stops at END-FILE and writes exactly the
   * lines of the program the stream spells.
   */
  lemma {:induction false} ProgramParsed(f: TokenStream) returns (p: Program)
    requires InStream(f, 0) && ParseProgram(f, 0).outcome.Pass?
    ensures ProgramOk(p) && Spells(f, 0, ProgramYield(p)) && |SegmentsYield(p.segments)| + 2 == |f.tokens|
    ensures ParseProgram(f, 0) == Parsed(Pass, |f.tokens| - 1, ProgramLines(f, p))
  {
    p := ProgramSound(f);
    ProgramComplete(f, p);
  }
}
