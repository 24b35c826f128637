/**
 * What the colouring pass of `colorInputTokenizer` shows: read back token
 * by token, its values spell the input without the whitespace between
 * tokens, unless the input holds `==` or `=<` outside a comment.
 */
module ColouringFacts {
  import opened Tokens
  import opened Scanner
  import opened ScannerFacts

  /**
   * `input[i..]` as its tokens spell it: the whitespace between tokens is
   * dropped, and a comment is kept whole up to the end of its line.
   */
  function Visible(input: string, i: nat): string
    decreases |input| - i
  {
    if i >= |input| then []
    else if IsWhitespace(input[i]) then Visible(input, i + 1)
    else if StartsComment(input, i) then
      input[i..CommentEnd(input, i + 2)] + Visible(input, CommentEnd(input, i + 2))
    else [input[i]] + Visible(input, i + 1)
  }

  /** From `i` on, no `==` and no `=<` starts outside a comment. */
  predicate Plain(input: string, i: nat)
    decreases |input| - i
  {
    if i >= |input| then true
    else if IsWhitespace(input[i]) then Plain(input, i + 1)
    else if StartsComment(input, i) then Plain(input, CommentEnd(input, i + 2))
    else !(input[i] == '=' && (At(input, i + 1, '=') || At(input, i + 1, '<'))) && Plain(input, i + 1)
  }

  /** The values of a token list, one after the other. */
  function Values(tokens: seq<Token>): string {
    if tokens == [] then []
    else (if tokens[0].value.Some? then tokens[0].value.get else []) + Values(tokens[1..])
  }

  lemma ValuesCons(t: Token, rest: seq<Token>)
    requires t.value.Some?
    ensures Values([t] + rest) == t.value.get + Values(rest)
  {
    assert ([t] + rest)[1..] == rest;
  }

  /** Whitespace is invisible and keeps the input plain. */
  lemma {:induction false} VisibleSkipsWhitespace(input: string, index: nat, line: nat)
    ensures var ws := SkipWhitespace(input, index, line).index;
      Visible(input, index) == Visible(input, ws) && (Plain(input, index) ==> Plain(input, ws))
    decreases |input| - index
  {
    if index < |input| && IsWhitespace(input[index]) {
      VisibleSkipsWhitespace(input, index + 1, if input[index] == '\n' then line + 1 else line);
    }
  }

  /** A stretch with no whitespace and no comment in it is visible character for character. */
  lemma {:induction false} VisibleRun(input: string, i: nat, j: nat)
    requires i <= j <= |input|
    requires forall k :: i <= k < j ==> !IsWhitespace(input[k]) && !StartsComment(input, k)
    ensures Visible(input, i) == input[i..j] + Visible(input, j)
    ensures Plain(input, i) ==> Plain(input, j)
    decreases j - i
  {
    if i < j {
      assert !IsWhitespace(input[i]) && !StartsComment(input, i);
      assert Visible(input, i) == [input[i]] + Visible(input, i + 1);
      assert Plain(input, i) ==> Plain(input, i + 1);
      VisibleRun(input, i + 1, j);
      assert input[i..j] == [input[i]] + input[i + 1..j];
    }
  }

  /**
   * The token that starts at `ws`, past the whitespace: its value is the
   * text it consumed, and the rest of the input stays plain.
   */
  lemma TokenIsVisible(input: string, index: nat, line: nat)
    requires index <= |input| && Plain(input, index)
    requires SkipWhitespace(input, index, line).index < |input|
    ensures var s := Scan(input, index, line, true);
      var ws := SkipWhitespace(input, index, line).index;
      && ws < s.index <= |input|
      && s.result.value.value == Some(input[ws..s.index])
      && Visible(input, index) == input[ws..s.index] + Visible(input, s.index)
      && Plain(input, s.index)
  {
    var c := SkipWhitespace(input, index, line);
    VisibleSkipsWhitespace(input, index, line);
    if StartsComment(input, c.index) {
      CommentIsItsText(input, index, line, c);
    } else {
      ScanAtToken(input, index, line, true, c);
      WordOrOperatorIsVisible(input, c.index, c.line);
    }
  }

  /** A token other than a comment, scanned at a plain position `i`. */
  lemma WordOrOperatorIsVisible(input: string, i: nat, line: nat)
    requires i < |input| && Plain(input, i) && !IsWhitespace(input[i]) && !StartsComment(input, i)
    ensures var s := ScanToken(input, i, line, true);
      && i < s.index <= |input|
      && s.result.value.value == Some(input[i..s.index])
      && Visible(input, i) == input[i..s.index] + Visible(input, s.index)
      && Plain(input, s.index)
  {
    if IsLetterOrDigit(input[i]) {
      WordIsVisible(input, i, line);
    } else if IsOperatorChar(input[i]) {
      OperatorIsVisible(input, i, line);
    } else {
      UnknownIsVisible(input, i, line);
    }
  }

  lemma WordIsVisible(input: string, i: nat, line: nat)
    requires i < |input| && IsLetterOrDigit(input[i])
    ensures var s := ScanToken(input, i, line, true);
      && i < s.index <= |input|
      && s.result.value.value == Some(input[i..s.index])
      && Visible(input, i) == input[i..s.index] + Visible(input, s.index)
      && (Plain(input, i) ==> Plain(input, s.index))
  {
    var j := WordEnd(input, i);
    WordTokenValue(input[i..j], line);
    WordIsLetters(input, i);
    forall k | i <= k < j ensures !IsWhitespace(input[k]) && !StartsComment(input, k) {
      assert IsLetterOrDigit(input[k]);
    }
    VisibleRun(input, i, j);
  }

  lemma OperatorIsVisible(input: string, i: nat, line: nat)
    requires i < |input| && Plain(input, i) && IsOperatorChar(input[i]) && !StartsComment(input, i)
    ensures var s := ScanToken(input, i, line, true);
      && i < s.index <= |input|
      && s.result.value.value == Some(input[i..s.index])
      && Visible(input, i) == input[i..s.index] + Visible(input, s.index)
      && Plain(input, s.index)
  {
    var (lexeme, j) := OperatorLexeme(input, i);
    assert !(input[i] == '=' && (At(input, i + 1, '=') || At(input, i + 1, '<')));
    if j == i + 2 {
      PairIsVisible(input, i);
    } else {
      assert input[i..j] == [input[i]];
      VisibleRun(input, i, j);
    }
  }

  /** `!=` and `>=`: both characters are the lexeme. */
  lemma PairIsVisible(input: string, i: nat)
    requires i + 1 < |input| && input[i] in "!>" && input[i + 1] == '='
    ensures OperatorLexeme(input, i) == (input[i..i + 2], i + 2)
    ensures Visible(input, i) == input[i..i + 2] + Visible(input, i + 2)
    ensures Plain(input, i) ==> Plain(input, i + 2)
  {
    assert input[i..i + 2] == [input[i], input[i + 1]];
    VisibleRun(input, i, i + 2);
  }

  lemma UnknownIsVisible(input: string, i: nat, line: nat)
    requires i < |input| && !IsWhitespace(input[i]) && !IsLetterOrDigit(input[i]) && !IsOperatorChar(input[i])
    ensures var s := ScanToken(input, i, line, true);
      && s.index == i + 1
      && s.result.value.value == Some(input[i..s.index])
      && Visible(input, i) == input[i..s.index] + Visible(input, s.index)
      && (Plain(input, i) ==> Plain(input, s.index))
  {
    assert input[i..i + 1] == [input[i]];
    VisibleRun(input, i, i + 1);
  }

  /**
   * Round trip: on plain input the values of all colouring tokens, END-FILE
   * left out, spell the input without its whitespace between tokens.
   */
  lemma {:induction false} ColourRoundTrip(input: string, index: nat, line: nat)
    requires index <= |input| && Plain(input, index)
    ensures Values(ColourAll(input, index, line).tokens) == Visible(input, index)
    decreases |input| - index
  {
    if index < |input| {
      var s := Scan(input, index, line, true);
      var ws := SkipWhitespace(input, index, line).index;
      ColouringTokenIsItsText(input, index, line);
      if ws == |input| {
        VisibleSkipsWhitespace(input, index, line);
        ScanShape(input, index, line, true);
      } else {
        TokenIsVisible(input, index, line);
        ColourRoundTrip(input, s.index, s.line);
        ValuesCons(s.result.value, ColourAll(input, s.index, s.line).tokens);
      }
    }
  }

  /** `==` breaks the round trip: its token spells `=undefined`. */
  lemma EqualsBreaksRoundTrip(input: string)
    requires input == "a==b"
    ensures Visible(input, 0) == input
    ensures Values(ColourAll(input, 0, 1).tokens) == "a=undefinedb"
  {
    EqualsVisible(input);
    EqualsTokens(input);
    EqualsValues(input);
    EqualsSpelled(Token(Id, Some("a")), Token(OtherOp, Some("=undefined")), Token(Id, Some("b")));
  }

  lemma EqualsVisible(input: string)
    requires input == "a==b"
    ensures Visible(input, 0) == input
  {
    assert Visible(input, 3) == "b";
    assert Visible(input, 2) == "=b";
    assert Visible(input, 1) == "==b";
  }

  lemma EqualsValues(input: string)
    requires |input| == 4
    requires Scan(input, 0, 1, true) == Scanned(Ok(Token(Id, Some("a"))), 1, 1)
    requires Scan(input, 1, 1, true) == Scanned(Ok(Token(OtherOp, Some("=undefined"))), 3, 1)
    requires Scan(input, 3, 1, true) == Scanned(Ok(Token(Id, Some("b"))), 4, 1)
    ensures ColourAll(input, 0, 1).tokens == [Token(Id, Some("a")), Token(OtherOp, Some("=undefined")), Token(Id, Some("b"))]
  {
    ColourStep(input, 3, 1, Token(Id, Some("b")), 4, 1);
    ColourStep(input, 1, 1, Token(OtherOp, Some("=undefined")), 3, 1);
    ColourStep(input, 0, 1, Token(Id, Some("a")), 1, 1);
  }

  lemma EqualsSpelled(a: Token, equals: Token, b: Token)
    requires a == Token(Id, Some("a")) && equals == Token(OtherOp, Some("=undefined")) && b == Token(Id, Some("b"))
    ensures Values([a, equals, b]) == "a=undefinedb"
  {
    ValuesCons(b, []);
    ValuesCons(equals, [b]);
    ValuesCons(a, [equals, b]);
  }

  /** One colouring token other than END-FILE, then the rest of the pass. */
  lemma ColourStep(input: string, index: nat, line: nat, t: Token, j: nat, l: nat)
    requires index < |input| && Scan(input, index, line, true) == Scanned(Ok(t), j, l) && t.kind != EndFile
    ensures ColourAll(input, index, line).tokens == [t] + ColourAll(input, j, l).tokens
  {
  }

  /** The three colouring scans of `a==b`. */
  lemma EqualsTokens(input: string)
    requires input == "a==b"
    ensures Scan(input, 0, 1, true) == Scanned(Ok(Token(Id, Some("a"))), 1, 1)
    ensures Scan(input, 1, 1, true) == Scanned(Ok(Token(OtherOp, Some("=undefined"))), 3, 1)
    ensures Scan(input, 3, 1, true) == Scanned(Ok(Token(Id, Some("b"))), 4, 1)
  {
    assert input[0..1] == "a" && input[1..3] == "==" && input[3..4] == "b";
    SkipStopsAt(input, 0, 1, true);
    ScanIdentifier(input, 0, 1, true, Cursor(0, 1), "a");
    SkipStopsAt(input, 1, 1, true);
    ScanTwoCharacterOperators(input, 1, 1, true, Cursor(1, 1));
    SkipStopsAt(input, 3, 1, true);
    ScanIdentifier(input, 3, 1, true, Cursor(3, 1), "b");
  }
}
