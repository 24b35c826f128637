/**
 * The shape of the console trace.  Every rule but `statements` writes
 * `Enter < rule >` before its parts and `Exit < rule >` after them, so on
 * success those pairs are balanced and properly nested; `statements`
 * writes one `Enter` and one `Exit` per statement, and is left out of the
 * pairing.
 */
module Trace {
  import opened Tokens
  import opened Scanner
  import opened Descent
  import opened Grammar
  import opened DescentSound

  /**
   * Reads `lines` with `open` the rules entered and not yet exited, the
   * innermost last: the rules still open at the end, or `None` when an
   * `Exit` does not close the innermost open rule.
   */
  function Close(lines: seq<Line>, open: seq<Rule>): Option<seq<Rule>>
    decreases |lines|
  {
    if lines == [] then Some(open)
    else
      match lines[0]
      case NextTokenIs(_) => Close(lines[1..], open)
      case Enter(r) =>
        if r == StatementsRule then Close(lines[1..], open) else Close(lines[1..], open + [r])
      case Exit(r) =>
        if r == StatementsRule then Close(lines[1..], open)
        else if open != [] && open[|open| - 1] == r then Close(lines[1..], open[..|open| - 1])
        else None
  }

  /** Every `Enter` is closed by its own `Exit`, innermost first. */
  predicate Balanced(lines: seq<Line>) {
    Close(lines, []) == Some([])
  }

  /** `Close` of `b` after `Close` of `a`. */
  function Then(o: Option<seq<Rule>>, b: seq<Line>): Option<seq<Rule>> {
    if o.None? then None else Close(b, o.get)
  }

  /** Reading `a + b` is reading `a`, then `b` from where `a` left off. */
  lemma {:induction false} CloseAppend(a: seq<Line>, b: seq<Line>, open: seq<Rule>)
    ensures Close(a + b, open) == Then(Close(a, open), b)
    decreases |a|
  {
    if a != [] {
      assert (a + b)[0] == a[0];
      assert (a + b)[1..] == a[1..] + b;
      match a[0]
      case NextTokenIs(_) => CloseAppend(a[1..], b, open);
      case Enter(r) =>
        if r == StatementsRule {
          CloseAppend(a[1..], b, open);
        } else {
          CloseAppend(a[1..], b, open + [r]);
        }
      case Exit(r) =>
        if r == StatementsRule {
          CloseAppend(a[1..], b, open);
        } else if open != [] && open[|open| - 1] == r {
          CloseAppend(a[1..], b, open[..|open| - 1]);
        }
    } else {
      assert a + b == b;
    }
  }

  /** Read with any rules already open, `lines` leaves exactly those open. */
  ghost predicate Nests(lines: seq<Line>) {
    forall open {:trigger Close(lines, open)} :: Close(lines, open) == Some(open)
  }

  lemma {:induction false} NestsIsBalanced(lines: seq<Line>)
    requires Nests(lines)
    ensures Balanced(lines)
  {
    assert Close(lines, []) == Some([]);
  }

  /** Two nesting runs one after the other nest. */
  lemma {:induction false} NestsJoin(a: seq<Line>, b: seq<Line>)
    requires Nests(a) && Nests(b)
    ensures Nests(a + b)
  {
    forall open
      ensures Close(a + b, open) == Some(open)
    {
      CloseAppend(a, b, open);
      assert Close(a, open) == Some(open);
      assert Close(b, open) == Some(open);
    }
  }

  /** A rule other than `statements` around a nesting run nests. */
  lemma {:induction false} NestsNested(rule: Rule, inner: seq<Line>)
    requires rule != StatementsRule && Nests(inner)
    ensures Nests(Nested(rule, inner))
  {
    forall open
      ensures Close(Nested(rule, inner), open) == Some(open)
    {
      var inside := open + [rule];
      assert Close([Enter(rule)], open) == Close([], inside) by {
        assert [Enter(rule)][1..] == [];
      }
      CloseAppend([Enter(rule)], inner, open);
      assert Close(inner, inside) == Some(inside);
      assert Close([Exit(rule)], inside) == Close([], open) by {
        assert [Exit(rule)][1..] == [];
        assert inside[..|inside| - 1] == open;
      }
      CloseAppend([Enter(rule)] + inner, [Exit(rule)], open);
    }
  }

  /** The `statements` lines stand outside the pairing. */
  lemma {:induction false} StatementsMarksNest()
    ensures Nests([Enter(StatementsRule)]) && Nests([Exit(StatementsRule)])
  {
    forall open
      ensures Close([Enter(StatementsRule)], open) == Some(open)
      ensures Close([Exit(StatementsRule)], open) == Some(open)
    {
      assert [Enter(StatementsRule)][1..] == [];
      assert [Exit(StatementsRule)][1..] == [];
    }
  }

  /** `Next Token is T` lines hold no pair. */
  lemma {:induction false} AnnounceNests(f: TokenStream, k: nat)
    requires k < |f.tokens|
    ensures Nests(AnnounceAt(f, k))
  {
    forall open
      ensures Close(AnnounceAt(f, k), open) == Some(open)
    {
      assert AnnounceAt(f, k) == [] || AnnounceAt(f, k)[1..] == [];
    }
  }

  /** A `Next Token is T` line that `parseProgram` writes itself. */
  lemma {:induction false} ShownNests(k: TokenKind)
    ensures Nests([NextTokenIs(k)])
  {
    forall open
      ensures Close([NextTokenIs(k)], open) == Some(open)
    {
      assert [NextTokenIs(k)][1..] == [];
    }
  }

  lemma {:induction false} VarNests(f: TokenStream, pos: nat)
    requires pos + 1 < |f.tokens|
    ensures Nests(VarLines(f, pos))
  {
    AnnounceNests(f, pos + 1);
    NestsNested(VarRule, AnnounceAt(f, pos + 1));
  }

  lemma {:induction false} TermNests(f: TokenStream, pos: nat, t: Term)
    requires pos + |TermYield(t)| < |f.tokens|
    ensures Nests(TermLines(f, pos, t))
    decreases t
  {
    match t
    case Paren(e) =>
      AnnounceNests(f, pos + 1);
      ExprNests(f, pos + 1, e);
      AnnounceNests(f, pos + 2 + |ExprYield(e)|);
      ParenNests(f, pos, t);
    case Atom(_) =>
      VarNests(f, pos);
      NestsNested(TermRule, VarLines(f, pos));
  }

  /** `( expression )` from the lines of its parts. */
  lemma {:induction false} ParenNests(f: TokenStream, pos: nat, t: Term)
    requires t.Paren? && pos + |TermYield(t)| < |f.tokens|
    requires Nests(AnnounceAt(f, pos + 1)) && Nests(ExprLines(f, pos + 1, t.inner))
    requires Nests(AnnounceAt(f, pos + 2 + |ExprYield(t.inner)|))
    ensures Nests(TermLines(f, pos, t))
  {
    var a, x, c := AnnounceAt(f, pos + 1), ExprLines(f, pos + 1, t.inner), AnnounceAt(f, pos + 2 + |ExprYield(t.inner)|);
    NestsJoin(a, x);
    NestsJoin(a + x, c);
    NestsNested(TermRule, a + x + c);
  }

  lemma {:induction false} ExprNests(f: TokenStream, pos: nat, e: Expr)
    requires pos + |ExprYield(e)| < |f.tokens|
    ensures Nests(ExprLines(f, pos, e))
    decreases e
  {
    TermNests(f, pos, e.head);
    TailNests(f, pos + |TermYield(e.head)|, e.tail);
    ExprJoinNests(f, pos, e);
  }

  /** An expression from the lines of its first term and of its tail. */
  lemma {:induction false} ExprJoinNests(f: TokenStream, pos: nat, e: Expr)
    requires pos + |ExprYield(e)| < |f.tokens|
    requires Nests(TermLines(f, pos, e.head)) && Nests(TailLines(f, pos + |TermYield(e.head)|, e.tail))
    ensures Nests(ExprLines(f, pos, e))
  {
    var h, t := TermLines(f, pos, e.head), TailLines(f, pos + |TermYield(e.head)|, e.tail);
    NestsJoin(h, t);
    NestsNested(ExpressionRule, h + t);
  }

  lemma {:induction false} TailNests(f: TokenStream, pos: nat, t: Tail)
    requires pos + |TailYield(t)| < |f.tokens|
    ensures Nests(TailLines(f, pos, t))
    decreases t
  {
    match t
    case NoMore =>
    case More(_, term, rest) =>
      var mid := pos + 1 + |TermYield(term)|;
      assert mid + |TailYield(rest)| == pos + |TailYield(t)|;
      AnnounceNests(f, pos + 1);
      TermNests(f, pos + 1, term);
      TailNests(f, mid, rest);
      MoreNests(f, pos, t);
  }

  /** An operator-term pair and the rest of the tail. */
  lemma {:induction false} MoreNests(f: TokenStream, pos: nat, t: Tail)
    requires t.More? && pos + |TailYield(t)| < |f.tokens|
    requires Nests(AnnounceAt(f, pos + 1)) && Nests(TermLines(f, pos + 1, t.term))
    requires Nests(TailLines(f, pos + 1 + |TermYield(t.term)|, t.rest))
    ensures Nests(TailLines(f, pos, t))
  {
    var a, x := AnnounceAt(f, pos + 1), TermLines(f, pos + 1, t.term);
    NestsJoin(a, x);
    NestsJoin(a + x, TailLines(f, pos + 1 + |TermYield(t.term)|, t.rest));
  }

  lemma {:induction false} LogicNests(f: TokenStream, pos: nat)
    requires pos + 3 < |f.tokens|
    ensures Nests(LogicLines(f, pos))
  {
    var a, b, v := AnnounceAt(f, pos + 1), AnnounceAt(f, pos + 2), VarLines(f, pos + 2);
    AnnounceNests(f, pos + 1);
    AnnounceNests(f, pos + 2);
    VarNests(f, pos + 2);
    NestsJoin(a, b);
    NestsJoin(a + b, v);
    NestsNested(LogicRule, a + b + v);
  }

  lemma {:induction false} StmtNests(f: TokenStream, pos: nat, s: Stmt)
    requires pos + |StmtYield(s)| < |f.tokens|
    ensures Nests(StmtLines(f, pos, s))
    decreases s, 1
  {
    match s
    case AssignStmt(e) =>
      AssignNests(f, pos, e);
      NestsNested(StatementRule, AssignLines(f, pos, e));
    case LoopStmt(_, _, body) =>
      LoopNests(f, pos, body);
      NestsNested(StatementRule, LoopLines(f, pos, body));
    case IfStmt(_, body) =>
      IfNests(f, pos, body);
      NestsNested(StatementRule, IfLines(f, pos, body));
  }

  lemma {:induction false} AssignNests(f: TokenStream, pos: nat, e: Expr)
    requires pos + 3 + |ExprYield(e)| < |f.tokens|
    ensures Nests(AssignLines(f, pos, e))
    decreases e, 0
  {
    AnnounceNests(f, pos + 1);
    AnnounceNests(f, pos + 2);
    ExprNests(f, pos + 2, e);
    AnnounceNests(f, pos + 3 + |ExprYield(e)|);
    AssignJoinNests(f, pos, e);
  }

  /** `ID = expression ;` from the lines of its parts. */
  lemma {:induction false} AssignJoinNests(f: TokenStream, pos: nat, e: Expr)
    requires pos + 3 + |ExprYield(e)| < |f.tokens|
    requires Nests(AnnounceAt(f, pos + 1)) && Nests(AnnounceAt(f, pos + 2)) && Nests(ExprLines(f, pos + 2, e))
    requires Nests(AnnounceAt(f, pos + 3 + |ExprYield(e)|))
    ensures Nests(AssignLines(f, pos, e))
  {
    var a, b, x, c := AnnounceAt(f, pos + 1), AnnounceAt(f, pos + 2), ExprLines(f, pos + 2, e),
      AnnounceAt(f, pos + 3 + |ExprYield(e)|);
    NestsJoin(a, b);
    NestsJoin(a + b, x);
    NestsJoin(a + b + x, c);
    NestsNested(AssignRule, a + b + x + c);
  }

  lemma {:induction false} LoopHeadNests(f: TokenStream, pos: nat)
    requires pos + 7 < |f.tokens|
    ensures Nests(LoopHeadLines(f, pos))
  {
    var a1, a2, a3, a4 := AnnounceAt(f, pos + 1), AnnounceAt(f, pos + 2), AnnounceAt(f, pos + 3), AnnounceAt(f, pos + 4);
    var v1, a6, v2 := VarLines(f, pos + 4), AnnounceAt(f, pos + 6), VarLines(f, pos + 6);
    AnnounceNests(f, pos + 1);
    AnnounceNests(f, pos + 2);
    AnnounceNests(f, pos + 3);
    AnnounceNests(f, pos + 4);
    AnnounceNests(f, pos + 6);
    VarNests(f, pos + 4);
    VarNests(f, pos + 6);
    NestsJoin(a1, a2);
    NestsJoin(a1 + a2, a3);
    NestsJoin(a1 + a2 + a3, a4);
    NestsJoin(a1 + a2 + a3 + a4, v1);
    NestsJoin(a1 + a2 + a3 + a4 + v1, a6);
    NestsJoin(a1 + a2 + a3 + a4 + v1 + a6, v2);
  }

  lemma {:induction false} IfHeadNests(f: TokenStream, pos: nat)
    requires pos + 5 < |f.tokens|
    ensures Nests(IfHeadLines(f, pos))
  {
    var a1, a2, l := AnnounceAt(f, pos + 1), AnnounceAt(f, pos + 2), LogicLines(f, pos + 2);
    AnnounceNests(f, pos + 1);
    AnnounceNests(f, pos + 2);
    LogicNests(f, pos + 2);
    NestsJoin(a1, a2);
    NestsJoin(a1 + a2, l);
  }

  /** A loop or an if: `rule` around its head, the `)` shown, the body, the closer shown. */
  lemma {:induction false} BlockNests(rule: Rule, head: seq<Line>, a: seq<Line>, body: seq<Line>, c: seq<Line>)
    requires rule != StatementsRule && Nests(head) && Nests(a) && Nests(body) && Nests(c)
    ensures Nests(Nested(rule, head + a + body + c))
  {
    NestsJoin(head, a);
    NestsJoin(head + a, body);
    NestsJoin(head + a + body, c);
    NestsNested(rule, head + a + body + c);
  }

  lemma {:induction false} LoopNests(f: TokenStream, pos: nat, body: Body)
    requires pos + 9 + |BodyYield(body)| < |f.tokens|
    ensures Nests(LoopLines(f, pos, body))
    decreases body, 2
  {
    LoopHeadNests(f, pos);
    AnnounceNests(f, pos + 8);
    BodyNests(f, pos + 8, body);
    AnnounceNests(f, pos + 9 + |BodyYield(body)|);
    BlockNests(LoopRule, LoopHeadLines(f, pos), AnnounceAt(f, pos + 8), BodyLines(f, pos + 8, body),
      AnnounceAt(f, pos + 9 + |BodyYield(body)|));
  }

  lemma {:induction false} IfNests(f: TokenStream, pos: nat, body: Body)
    requires pos + 7 + |BodyYield(body)| < |f.tokens|
    ensures Nests(IfLines(f, pos, body))
    decreases body, 2
  {
    IfHeadNests(f, pos);
    AnnounceNests(f, pos + 6);
    BodyNests(f, pos + 6, body);
    AnnounceNests(f, pos + 7 + |BodyYield(body)|);
    BlockNests(IfRule, IfHeadLines(f, pos), AnnounceAt(f, pos + 6), BodyLines(f, pos + 6, body),
      AnnounceAt(f, pos + 7 + |BodyYield(body)|));
  }

  lemma {:induction false} BodyNests(f: TokenStream, pos: nat, b: Body)
    requires pos + |BodyYield(b)| < |f.tokens|
    ensures Nests(BodyLines(f, pos, b))
    decreases b, 1
  {
    StatementsNests(f, pos, b);
    StatementsMarksNest();
    NestsJoin([Enter(StatementsRule)], StatementLines(f, pos, b));
  }

  lemma {:induction false} StatementsNests(f: TokenStream, pos: nat, b: Body)
    requires pos + |BodyYield(b)| < |f.tokens|
    ensures Nests(StatementLines(f, pos, b))
    decreases b, 0
  {
    match b
    case Empty =>
    case Cons(s, rest) =>
      var mid := pos + |StmtYield(s)|;
      assert mid + |BodyYield(rest)| == pos + |BodyYield(b)|;
      StmtNests(f, pos, s);
      StatementsNests(f, mid, rest);
      ConsNests(f, pos, b);
  }

  /** A statement, its `Exit < statements >`, and the rest of the body. */
  lemma {:induction false} ConsNests(f: TokenStream, pos: nat, b: Body)
    requires b.Cons? && pos + |BodyYield(b)| < |f.tokens|
    requires Nests(StmtLines(f, pos, b.first)) && Nests(StatementLines(f, pos + |StmtYield(b.first)|, b.rest))
    ensures Nests(StatementLines(f, pos, b))
  {
    var x := StmtLines(f, pos, b.first);
    StatementsMarksNest();
    NestsJoin(x, [Exit(StatementsRule)]);
    NestsJoin(x + [Exit(StatementsRule)], StatementLines(f, pos + |StmtYield(b.first)|, b.rest));
  }

  lemma {:induction false} SegmentsNests(f: TokenStream, pos: nat, segments: seq<Segment>)
    requires pos + |SegmentsYield(segments)| < |f.tokens|
    ensures Nests(SegmentsLines(f, pos, segments))
    decreases |segments|
  {
    if segments != [] {
      var mid := pos + 1 + |BodyYield(segments[0].body)|;
      assert mid + |SegmentsYield(segments[1..])| == pos + |SegmentsYield(segments)|;
      AnnounceNests(f, pos + 1);
      BodyNests(f, pos + 1, segments[0].body);
      SegmentsNests(f, mid, segments[1..]);
      SegmentNests(f, pos, segments);
    }
  }

  /** A segment's opener shown, its body, and the later segments. */
  lemma {:induction false} SegmentNests(f: TokenStream, pos: nat, segments: seq<Segment>)
    requires segments != [] && pos + |SegmentsYield(segments)| < |f.tokens|
    requires Nests(AnnounceAt(f, pos + 1)) && Nests(BodyLines(f, pos + 1, segments[0].body))
    requires Nests(SegmentsLines(f, pos + 1 + |BodyYield(segments[0].body)|, segments[1..]))
    ensures Nests(SegmentsLines(f, pos, segments))
  {
    var a, b := AnnounceAt(f, pos + 1), BodyLines(f, pos + 1, segments[0].body);
    NestsJoin(a, b);
    NestsJoin(a + b, SegmentsLines(f, pos + 1 + |BodyYield(segments[0].body)|, segments[1..]));
  }

  /** The whole trace of a program nests. */
  lemma {:induction false} ProgramNests(f: TokenStream, p: Program)
    requires |SegmentsYield(p.segments)| + 1 < |f.tokens|
    ensures Nests(ProgramLines(f, p))
  {
    SegmentsNests(f, 0, p.segments);
    AnnounceNests(f, |SegmentsYield(p.segments)| + 1);
    ProgramJoinNests(f, p);
  }

  /** `parseProgram`'s lines from those of its segments and of the token after END. */
  lemma {:induction false} ProgramJoinNests(f: TokenStream, p: Program)
    requires |SegmentsYield(p.segments)| + 1 < |f.tokens|
    requires Nests(SegmentsLines(f, 0, p.segments)) && Nests(AnnounceAt(f, |SegmentsYield(p.segments)| + 1))
    ensures Nests(ProgramLines(f, p))
  {
    var s, e := SegmentsLines(f, 0, p.segments), AnnounceAt(f, |SegmentsYield(p.segments)| + 1);
    var first, end := [NextTokenIs(f.tokens[0].kind)], [NextTokenIs(End)];
    ShownNests(End);
    ShownNests(f.tokens[0].kind);
    NestsJoin(s, end);
    NestsJoin(s + end, e);
    NestsNested(ProgramRule, s + end + e);
    NestsJoin(first, Nested(ProgramRule, s + end + e));
    assert ProgramLines(f, p) == first + Nested(ProgramRule, s + end + e);
  }

  /** When `parseProgram` succeeds, its console lines are balanced. */
  lemma {:induction false} SuccessIsBalanced(f: TokenStream)
    requires InStream(f, 0) && ParseProgram(f, 0).outcome.Pass?
    ensures Balanced(ParseProgram(f, 0).lines)
  {
    var p := ProgramParsed(f);
    ProgramNests(f, p);
    NestsIsBalanced(ProgramLines(f, p));
  }
}
