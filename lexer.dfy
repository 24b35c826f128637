/**
 * The `Lexer` class: a cursor and a line counter over a fixed input, moved
 * forward by the same loops the source uses.  Every method is proved to do
 * exactly what the `Scanner` functions say.
 */
module Lexing {
  import opened Tokens
  import opened Scanner

  /** One turn of the whitespace loop leaves the loop's destination unchanged. */
  lemma SkipWhitespaceStep(input: string, index: nat, line: nat)
    requires index < |input| && IsWhitespace(input[index])
    ensures SkipWhitespace(input, index, line)
      == SkipWhitespace(input, index + 1, if input[index] == '\n' then line + 1 else line)
  {
  }

  /** Reading one more character of a run raises the digit-then-letter flag only on a letter or `_`. */
  lemma DigitThenLetterSnoc(input: string, start: nat, i: nat)
    requires start < i < |input|
    ensures StartsWithDigitThenLetter(input[start..i + 1])
      == (StartsWithDigitThenLetter(input[start..i]) || (IsDigit(input[start]) && IsLetterOrUnderscore(input[i])))
  {
    var w, v := input[start..i], input[start..i + 1];
    assert v == w + [input[i]];
    if StartsWithDigitThenLetter(v) && !StartsWithDigitThenLetter(w) {
      var k :| 1 <= k < |v| && IsLetterOrUnderscore(v[k]);
      assert k == |w|;
    }
    if StartsWithDigitThenLetter(w) {
      var k :| 1 <= k < |w| && IsLetterOrUnderscore(w[k]);
      assert v[k] == w[k];
    }
    if IsDigit(input[start]) && IsLetterOrUnderscore(input[i]) {
      assert v[|w|] == input[i];
    }
  }

  /** The three outcomes of `#handleLetterOrDigit`, in the order it tests them. */
  lemma WordTokenCases(w: string, line: nat, colouring: bool)
    ensures StartsWithDigitThenLetter(w) ==> WordToken(w, line, colouring) == IdStartsWithNum(w, line, colouring)
    ensures !StartsWithDigitThenLetter(w) && AllDigits(w) ==> WordToken(w, line, colouring) == Ok(Token(Num, Some(w)))
    ensures !StartsWithDigitThenLetter(w) && !AllDigits(w) ==> WordToken(w, line, colouring) == Ok(KeywordOrIdentifier(w))
  {
  }

  class Lexer {
    const input: string
    var index: nat
    /** `inputCodeline`: the 1-based line the cursor is on, as far as counted. */
    var line: nat

    /**
     * The cursor is at most one past the end (a trailing comment in strict
     * mode steps over the end by one) and lines count from 1.
     */
    ghost predicate Valid()
      reads this
    {
      index <= |input| + 1 && line >= 1
    }

    constructor (input: string)
      ensures this.input == input && index == 0 && line == 1
      ensures Valid()
    {
      this.input := input;
      index := 0;
      line := 1;
    }

    /** `#isEndOfInput` */
    predicate IsEndOfInput()
      reads this
    {
      index >= |input|
    }

    /** `nextToken(colorizingText)` */
    method NextToken(colouring: bool) returns (r: Result<Token>)
      requires Valid()
      modifies this
      ensures Valid()
      ensures Scanned(r, index, line) == Scan(input, old(index), old(line), colouring)
      decreases Remaining(input, index), 1
    {
      ghost var start := Cursor(index, line);
      var skipped := SkipWhitespaceAndComments(colouring);
      if skipped.Some? {
        return skipped.get;
      }
      ScanAtToken(input, start.index, start.line, colouring, Cursor(index, line));
      if IsEndOfInput() {
        return Ok(EndOfInput);
      }
      var currentChar := input[index];
      if IsLetterOrDigit(currentChar) {
        r := HandleLetterOrDigit(colouring);
      } else if IsOperatorChar(currentChar) {
        var t := HandleOperator();
        r := Ok(t);
      } else {
        r := HandleUnknownToken(colouring);
      }
    }

    /**
     * `#skipWhitespaceAndCommentsExceptWhenColorizingInputTokens`: a token
     * when it already knows the answer (END-FILE after trailing whitespace, a
     * COMMENT, or the token after a skipped comment), else `None` with the
     * cursor past the whitespace.
     */
    method SkipWhitespaceAndComments(colouring: bool) returns (r: Option<Result<Token>>)
      requires Valid()
      modifies this
      ensures Valid()
      ensures r.Some? ==> Scanned(r.get, index, line) == Scan(input, old(index), old(line), colouring)
      ensures r.None? ==>
        Cursor(index, line) == SkipWhitespace(input, old(index), old(line))
        && !StartsComment(input, index)
      decreases Remaining(input, index), 0
    {
      ghost var start := Cursor(index, line);
      ghost var ws := SkipWhitespace(input, index, line);
      while index < |input| && IsWhitespace(input[index])
        invariant start.index <= index <= |input| + 1 && line >= 1
        invariant SkipWhitespace(input, index, line) == ws
        decreases |input| - index
      {
        SkipWhitespaceStep(input, index, line);
        if input[index] == '\n' {
          line := line + 1;
        }
        index := index + 1;
        if IsEndOfInput() {
          ScanAtEnd(input, start.index, start.line, colouring, ws);
          return Some(Ok(EndOfInput));
        }
      }
      assert ws == Cursor(index, line);
      if StartsComment(input, index) {
        var commentValue := HandleComment();
        if colouring {
          ScanColouringComment(input, start.index, start.line, ws, index);
          return Some(Ok(Token(Comment, Some(commentValue))));
        }
        ghost var j := index;
        ScanStrictComment(input, start.index, start.line, ws, j);
        // Steps over the newline that ended the comment without counting it.
        index := index + 1;
        assert Cursor(index, line) == Cursor(j + 1, ws.line);
        var t := NextToken(false);
        return Some(t);
      }
      return None;
    }

    /** `#handleLetterOrDigit`: the maximal run of `[a-zA-Z0-9_]` at the cursor. */
    method HandleLetterOrDigit(colouring: bool) returns (r: Result<Token>)
      requires index < |input| && IsLetterOrDigit(input[index])
      modifies this
      ensures line == old(line) && index == WordEnd(input, old(index))
      ensures r == WordToken(input[old(index)..index], line, colouring)
    {
      var value, lexerErroredDueToIdStartingWithNum := ReadRun();
      WordTokenCases(value, line, colouring);
      if lexerErroredDueToIdStartingWithNum {
        r := IdStartsWithNum(value, line, colouring);
      } else if AllDigits(value) {
        r := Ok(Token(Num, Some(value)));
      } else {
        r := Ok(KeywordOrIdentifier(value));
      }
    }

    /**
     * The loop of `#handleLetterOrDigit`: the run it reads, and whether a
     * letter or `_` followed a leading digit.
     */
    method ReadRun() returns (value: string, lexerErroredDueToIdStartingWithNum: bool)
      requires index < |input| && IsLetterOrDigit(input[index])
      modifies this
      ensures line == old(line) && index == WordEnd(input, old(index))
      ensures value == input[old(index)..index]
      ensures lexerErroredDueToIdStartingWithNum == StartsWithDigitThenLetter(value)
    {
      var start := index;
      value := "";
      var currentChar := input[index];
      var startsWithDigit := IsDigit(currentChar);
      lexerErroredDueToIdStartingWithNum := false;

      while IsLetterOrDigit(currentChar)
        invariant line == old(line)
        invariant start <= index < |input| && currentChar == input[index]
        invariant value == input[start..index]
        invariant WordEnd(input, index) == WordEnd(input, start)
        invariant startsWithDigit == IsDigit(input[start])
        invariant lexerErroredDueToIdStartingWithNum == StartsWithDigitThenLetter(input[start..index + 1])
        decreases |input| - index
      {
        assert WordEnd(input, index) == WordEnd(input, index + 1);
        value := value + [currentChar];
        index := index + 1;
        assert value == input[start..index];
        if IsEndOfInput() {
          break;
        }
        currentChar := input[index];
        DigitThenLetterSnoc(input, start, index);
        if startsWithDigit && IsLetterOrUnderscore(currentChar) {
          lexerErroredDueToIdStartingWithNum := true;
        }
      }

      assert WordEnd(input, index) == index;
      if index < |input| {
        DigitThenLetterSnoc(input, start, index);
      }
    }

    /** `#handleOperator`: one operator, two characters for the combined ones. */
    method HandleOperator() returns (t: Token)
      requires index < |input| && IsOperatorChar(input[index])
      modifies this
      ensures line == old(line)
      ensures var (lexeme, j) := OperatorLexeme(input, old(index));
        t == Token(OperatorKind(lexeme), Some(lexeme)) && index == j
    {
      var currentChar := input[index];
      var thisOperator := [currentChar];
      index := index + 1;

      if currentChar == '!' && At(input, index, '=') {
        thisOperator := thisOperator + [input[index]];
        index := index + 1;
      } else if currentChar == '=' && At(input, index, '=') {
        // The source appends `this.#input[this.index]`; `this.index` does not exist.
        thisOperator := thisOperator + Undefined;
        index := index + 1;
      } else if currentChar == '=' && At(input, index, '<') {
        // Same stale read as the branch above.
        thisOperator := thisOperator + Undefined;
        index := index + 1;
      } else if currentChar == '>' && At(input, index, '=') {
        thisOperator := thisOperator + [input[index]];
        index := index + 1;
      }

      t := Token(OperatorKind(thisOperator), Some(thisOperator));
    }

    /** `#handleUnknownToken`: steps over the character, then ERROR or the lexer error. */
    method HandleUnknownToken(colouring: bool) returns (r: Result<Token>)
      requires index < |input|
      modifies this
      ensures index == old(index) + 1 && line == old(line)
      ensures r == UnknownToken(input[old(index)], line, colouring)
    {
      var currentChar := input[index];
      index := index + 1;
      r := UnknownToken(currentChar, line, colouring);
    }

    /** `#handleComment`: from `//` up to, not including, the next newline. */
    method HandleComment() returns (value: string)
      requires StartsComment(input, index)
      modifies this
      ensures line == old(line) && index == CommentEnd(input, old(index) + 2)
      ensures value == CommentText(input, old(index), index)
    {
      value := "//";
      index := index + 2;
      while index < |input| && input[index] != '\n'
        invariant line == old(line)
        invariant old(index) + 2 <= index <= |input|
        invariant CommentEnd(input, index) == CommentEnd(input, old(index) + 2)
        invariant value == "//" + input[old(index) + 2..index]
        decreases |input| - index
      {
        assert input[old(index) + 2..index + 1] == input[old(index) + 2..index] + [input[index]];
        value := value + [input[index]];
        index := index + 1;
      }
      assert CommentEnd(input, index) == index;
    }

    /**
     * `colorInputTokenizer(hasError, parserIndex)`: every colouring token up
     * to the end, END-FILE left out, then with `hasError` the token at
     * `parserIndex` turned into an ERROR token.  `None` is the TypeError of
     * reading `.value` from a missing token.
     */
    method ColourInputTokenizer(hasError: bool, parserIndex: int) returns (r: Option<seq<Token>>)
      requires Valid()
      modifies this
      ensures Valid()
      ensures var c := ColourAll(input, old(index), old(line));
        index == c.index && line == c.line && r == MarkError(c.tokens, hasError, parserIndex)
    {
      var tokens := ColourToEnd();
      if hasError {
        if !(0 <= parserIndex < |tokens|) {
          return None;
        }
        var errorTokenValue := tokens[parserIndex].value;
        tokens := tokens[parserIndex := Token(Error, errorTokenValue)];
      }
      r := Some(tokens);
    }

    /** The loop of `colorInputTokenizer`: colouring tokens up to the end, END-FILE left out. */
    method ColourToEnd() returns (tokens: seq<Token>)
      requires Valid()
      modifies this
      ensures Valid()
      ensures var c := ColourAll(input, old(index), old(line));
        index == c.index && line == c.line && tokens == c.tokens
    {
      tokens := [];
      ghost var all := ColourAll(input, index, line);
      ghost var pending := all;
      while !IsEndOfInput()
        invariant Valid()
        invariant pending == ColourAll(input, index, line)
        invariant tokens + pending.tokens == all.tokens
        invariant pending.index == all.index && pending.line == all.line
        decreases |input| - index
      {
        ghost var s := Scan(input, index, line, true);
        ScanShape(input, index, line, true);
        ghost var next := ColourAll(input, s.index, s.line);
        ghost var scanned := if s.result.value.kind == EndFile then [] else [s.result.value];
        assert pending == Coloured(scanned + next.tokens, next.index, next.line);
        var token := NextToken(true);
        assert token == s.result && index == s.index && line == s.line;
        if token.value.kind != EndFile {
          tokens := tokens + [token.value];
        }
        assert tokens + next.tokens == all.tokens;
        pending := next;
      }
      assert pending == Coloured([], index, line);
    }
  }
}
