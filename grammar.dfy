/**
 * The language the parser recognises, as parse trees over token kinds: the
 * kinds each tree spells and the console lines the parser writes while it
 * reads that tree.  `DescentFacts` proves that the parsing functions
 * succeed on exactly these trees and write exactly these lines.
 */
module Grammar {
  import opened Tokens
  import opened Scanner
  import opened Descent

  /** `<var>`: an ID or a NUM. */
  datatype Var = Var(kind: TokenKind)

  /** `<term>`: `(` expression `)`, or a var. */
  datatype Term = Paren(inner: Expr) | Atom(operand: Var)

  /** `<expression>`: a term, then operator-term pairs. */
  datatype Expr = Expr(head: Term, tail: Tail)

  datatype Tail = NoMore | More(op: TokenKind, term: Term, rest: Tail)

  /** `<logic>`: ID, a comparison, a var. */
  datatype Logic = Logic(op: TokenKind, operand: Var)

  /** `<statement>`: an assignment, a loop or an if; the last two hold a body. */
  datatype Stmt =
    | AssignStmt(value: Expr)
    | LoopStmt(from: Var, to: Var, body: Body)
    | IfStmt(cond: Logic, body: Body)

  /** `<statements>` */
  datatype Body = Empty | Cons(first: Stmt, rest: Body)

  /**
   * One pass of the loop in `parseProgram`: the token it steps over (START
   * the first time, a stray END-LOOP or END-IF afterwards) and the
   * statements after it.
   */
  datatype Segment = Segment(opener: TokenKind, body: Body)

  /** `<program>`: the segments, then END and END-FILE. */
  datatype Program = Program(segments: seq<Segment>)

  // ----- Well-formed trees -----

  predicate TermOk(t: Term) {
    match t
    case Paren(e) => ExprOk(e)
    case Atom(v) => v.kind in Operands
  }

  predicate ExprOk(e: Expr) {
    TermOk(e.head) && TailOk(e.tail)
  }

  predicate TailOk(t: Tail) {
    t.More? ==> t.op in ArithmeticOps && TermOk(t.term) && TailOk(t.rest)
  }

  predicate LogicOk(l: Logic) {
    l.op in Relations && l.operand.kind in Operands
  }

  predicate StmtOk(s: Stmt) {
    match s
    case AssignStmt(e) => ExprOk(e)
    case LoopStmt(a, b, body) => a.kind in Operands && b.kind in Operands && BodyOk(body)
    case IfStmt(l, body) => LogicOk(l) && BodyOk(body)
  }

  predicate BodyOk(b: Body) {
    b.Cons? ==> StmtOk(b.first) && BodyOk(b.rest)
  }

  /** START opens the first segment, a stray END-LOOP or END-IF each later one. */
  predicate ProgramOk(p: Program) {
    |p.segments| > 0 && p.segments[0].opener == Start && SegmentsOk(p.segments)
  }

  /** Each body well formed; each segment after the first opened by END-LOOP or END-IF. */
  predicate SegmentsOk(segments: seq<Segment>)
    decreases |segments|
  {
    segments != [] ==>
      && segments[0].opener in [Start, EndLoop, EndIf]
      && BodyOk(segments[0].body)
      && (|segments| > 1 ==> segments[1].opener in [EndLoop, EndIf])
      && SegmentsOk(segments[1..])
  }

  // ----- The token kinds a tree spells -----

  function TermYield(t: Term): seq<TokenKind> {
    match t
    case Paren(e) => [LeftPar] + ExprYield(e) + [RightPar]
    case Atom(v) => [v.kind]
  }

  function ExprYield(e: Expr): seq<TokenKind> {
    TermYield(e.head) + TailYield(e.tail)
  }

  function TailYield(t: Tail): seq<TokenKind> {
    match t
    case NoMore => []
    case More(op, term, rest) => [op] + TermYield(term) + TailYield(rest)
  }

  function LogicYield(l: Logic): seq<TokenKind> {
    [Id, l.op, l.operand.kind]
  }

  function StmtYield(s: Stmt): seq<TokenKind> {
    match s
    case AssignStmt(e) => [Id, Assign] + ExprYield(e) + [Semi]
    case LoopStmt(a, b, body) =>
      [Loop, LeftPar, Id, Assign, a.kind, Colon, b.kind, RightPar] + BodyYield(body) + [EndLoop]
    case IfStmt(l, body) =>
      [If, LeftPar] + LogicYield(l) + [RightPar] + BodyYield(body) + [EndIf]
  }

  function BodyYield(b: Body): seq<TokenKind> {
    match b
    case Empty => []
    case Cons(s, rest) => StmtYield(s) + BodyYield(rest)
  }

  function SegmentsYield(segments: seq<Segment>): seq<TokenKind> {
    if segments == [] then []
    else [segments[0].opener] + BodyYield(segments[0].body) + SegmentsYield(segments[1..])
  }

  function ProgramYield(p: Program): seq<TokenKind> {
    SegmentsYield(p.segments) + [End, EndFile]
  }

  /** The tokens from `pos` on have the kinds `kinds`. */
  predicate Spells(f: TokenStream, pos: nat, kinds: seq<TokenKind>)
    decreases |kinds|
  {
    if kinds == [] then pos <= |f.tokens|
    else pos < |f.tokens| && f.tokens[pos].kind == kinds[0] && Spells(f, pos + 1, kinds[1..])
  }

  // ----- What the parser writes while it reads a tree -----

  /** What `#advanceToken` writes when the token at `k` becomes the lookahead. */
  function AnnounceAt(f: TokenStream, k: nat): seq<Line>
    requires k < |f.tokens|
  {
    Announce(f.tokens[k])
  }

  /** A rule's lines: `Enter < rule >`, the lines of its parts, `Exit < rule >`. */
  function Nested(rule: Rule, inner: seq<Line>): seq<Line> {
    [Enter(rule)] + inner + [Exit(rule)]
  }

  function VarLines(f: TokenStream, pos: nat): seq<Line>
    requires pos + 1 < |f.tokens|
  {
    Nested(VarRule, AnnounceAt(f, pos + 1))
  }

  function TermLines(f: TokenStream, pos: nat, t: Term): seq<Line>
    requires pos + |TermYield(t)| < |f.tokens|
    decreases t
  {
    Nested(TermRule,
      match t
      case Paren(e) =>
        AnnounceAt(f, pos + 1) + ExprLines(f, pos + 1, e) + AnnounceAt(f, pos + 2 + |ExprYield(e)|)
      case Atom(_) => VarLines(f, pos))
  }

  function ExprLines(f: TokenStream, pos: nat, e: Expr): seq<Line>
    requires pos + |ExprYield(e)| < |f.tokens|
    decreases e
  {
    Nested(ExpressionRule, TermLines(f, pos, e.head) + TailLines(f, pos + |TermYield(e.head)|, e.tail))
  }

  function TailLines(f: TokenStream, pos: nat, t: Tail): seq<Line>
    requires pos + |TailYield(t)| < |f.tokens|
    decreases t
  {
    match t
    case NoMore => []
    case More(_, term, rest) =>
      AnnounceAt(f, pos + 1) + TermLines(f, pos + 1, term)
      + TailLines(f, pos + 1 + |TermYield(term)|, rest)
  }

  function LogicLines(f: TokenStream, pos: nat): seq<Line>
    requires pos + 3 < |f.tokens|
  {
    Nested(LogicRule, AnnounceAt(f, pos + 1) + AnnounceAt(f, pos + 2) + VarLines(f, pos + 2))
  }

  function StmtLines(f: TokenStream, pos: nat, s: Stmt): seq<Line>
    requires pos + |StmtYield(s)| < |f.tokens|
    decreases s, 1
  {
    match s
    case AssignStmt(e) => Nested(StatementRule, AssignLines(f, pos, e))
    case LoopStmt(_, _, body) => Nested(StatementRule, LoopLines(f, pos, body))
    case IfStmt(_, body) => Nested(StatementRule, IfLines(f, pos, body))
  }

  /** `ID = expression ;` from `pos` on. */
  function AssignLines(f: TokenStream, pos: nat, e: Expr): seq<Line>
    requires pos + 3 + |ExprYield(e)| < |f.tokens|
  {
    Nested(AssignRule,
      AnnounceAt(f, pos + 1) + AnnounceAt(f, pos + 2) + ExprLines(f, pos + 2, e)
      + AnnounceAt(f, pos + 3 + |ExprYield(e)|))
  }

  /** `LOOP ( ID = var : var ) statements END-LOOP` from `pos` on. */
  function LoopLines(f: TokenStream, pos: nat, body: Body): seq<Line>
    requires pos + 9 + |BodyYield(body)| < |f.tokens|
    decreases body, 2
  {
    Nested(LoopRule,
      LoopHeadLines(f, pos) + AnnounceAt(f, pos + 8)
      + BodyLines(f, pos + 8, body) + AnnounceAt(f, pos + 9 + |BodyYield(body)|))
  }

  /** The lines of `LOOP ( ID = var : var`, until `)` is the lookahead. */
  function LoopHeadLines(f: TokenStream, pos: nat): seq<Line>
    requires pos + 7 < |f.tokens|
  {
    AnnounceAt(f, pos + 1) + AnnounceAt(f, pos + 2) + AnnounceAt(f, pos + 3) + AnnounceAt(f, pos + 4)
    + VarLines(f, pos + 4) + AnnounceAt(f, pos + 6) + VarLines(f, pos + 6)
  }

  /** `IF ( logic ) statements END-IF` from `pos` on. */
  function IfLines(f: TokenStream, pos: nat, body: Body): seq<Line>
    requires pos + 7 + |BodyYield(body)| < |f.tokens|
    decreases body, 2
  {
    Nested(IfRule,
      IfHeadLines(f, pos) + AnnounceAt(f, pos + 6)
      + BodyLines(f, pos + 6, body) + AnnounceAt(f, pos + 7 + |BodyYield(body)|))
  }

  /** The lines of `IF ( logic`, until `)` is the lookahead. */
  function IfHeadLines(f: TokenStream, pos: nat): seq<Line>
    requires pos + 5 < |f.tokens|
  {
    AnnounceAt(f, pos + 1) + AnnounceAt(f, pos + 2) + LogicLines(f, pos + 2)
  }

  /** One `Enter < statements >`, and one `Exit < statements >` after each statement. */
  function BodyLines(f: TokenStream, pos: nat, b: Body): seq<Line>
    requires pos + |BodyYield(b)| < |f.tokens|
    decreases b, 1
  {
    [Enter(StatementsRule)] + StatementLines(f, pos, b)
  }

  function StatementLines(f: TokenStream, pos: nat, b: Body): seq<Line>
    requires pos + |BodyYield(b)| < |f.tokens|
    decreases b, 0
  {
    match b
    case Empty => []
    case Cons(s, rest) =>
      StmtLines(f, pos, s) + [Exit(StatementsRule)] + StatementLines(f, pos + |StmtYield(s)|, rest)
  }

  function SegmentsLines(f: TokenStream, pos: nat, segments: seq<Segment>): seq<Line>
    requires pos + |SegmentsYield(segments)| < |f.tokens|
    decreases |segments|
  {
    if segments == [] then []
    else
      AnnounceAt(f, pos + 1) + BodyLines(f, pos + 1, segments[0].body)
      + SegmentsLines(f, pos + 1 + |BodyYield(segments[0].body)|, segments[1..])
  }

  /**
   * `parseProgram`'s lines: the first token shown, the program opened, the
   * segments, END shown, and the program closed.
   */
  function ProgramLines(f: TokenStream, p: Program): seq<Line>
    requires |SegmentsYield(p.segments)| + 1 < |f.tokens|
  {
    var q := |SegmentsYield(p.segments)|;
    [NextTokenIs(f.tokens[0].kind)] + [Enter(ProgramRule)] + SegmentsLines(f, 0, p.segments)
    + [NextTokenIs(End)] + AnnounceAt(f, q + 1) + [Exit(ProgramRule)]
  }
}
