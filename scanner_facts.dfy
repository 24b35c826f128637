/**
 * What one `nextToken` call promises, stated about `Scanner.Scan`.
 */
module ScannerFacts {
  import opened Tokens
  import opened Scanner

  // ----- End of input -----

  /** At or past the end, `nextToken` answers END-FILE and moves nothing. */
  lemma EndOfInputIsStable(input: string, index: nat, line: nat, colouring: bool)
    requires index >= |input|
    ensures Scan(input, index, line, colouring) == Scanned(Ok(EndOfInput), index, line)
  {
  }

  /** Once END-FILE has been returned, every later call returns it again. */
  lemma EndFileRepeats(input: string, index: nat, line: nat, colouring: bool, again: bool)
    requires Scan(input, index, line, colouring).result == Ok(EndOfInput)
    ensures var s := Scan(input, index, line, colouring);
      Scan(input, s.index, s.line, again) == Scanned(Ok(EndOfInput), s.index, s.line)
  {
    var s := Scan(input, index, line, colouring);
    ScanShape(input, index, line, colouring);
    EndOfInputIsStable(input, s.index, s.line, again);
  }

  /**
   * Text with no token in it: whitespace, and `//` comments, each ended by
   * a newline or by the end of the input.
   */
  predicate Blank(input: string, i: nat)
    decreases |input| - i
  {
    if i >= |input| then true
    else if IsWhitespace(input[i]) then Blank(input, i + 1)
    else StartsComment(input, i) && Blank(input, CommentEnd(input, i + 2) + 1)
  }

  lemma {:induction false} BlankAfterWhitespace(input: string, index: nat, line: nat)
    requires Blank(input, index)
    ensures Blank(input, SkipWhitespace(input, index, line).index)
    decreases |input| - index
  {
    if index < |input| && IsWhitespace(input[index]) {
      BlankAfterWhitespace(input, index + 1, if input[index] == '\n' then line + 1 else line);
    }
  }

  /** Strict skipping runs through blank text to the end of the input. */
  lemma {:induction false} SkipBlank(input: string, index: nat, line: nat)
    requires Blank(input, index)
    ensures Skip(input, index, line, false).AtToken? && Skip(input, index, line, false).at.index >= |input|
    decreases Remaining(input, index)
  {
    var ws := SkipWhitespace(input, index, line);
    BlankAfterWhitespace(input, index, line);
    if ws.index < |input| {
      var j := CommentEnd(input, ws.index + 2);
      SkipBlank(input, j + 1, ws.line);
    }
  }

  /**
   * Input made only of whitespace and comments has END-FILE as its first
   * and only token.
   */
  lemma BlankInput(input: string, line: nat)
    requires Blank(input, 0)
    ensures StreamFrom(input, 0, line).tokens == [EndOfInput]
    ensures StreamFrom(input, 0, line).failure.None?
  {
    SkipBlank(input, 0, line);
  }

  /** A token other than END-FILE heads the stream, which goes on from after it. */
  lemma StreamStep(input: string, index: nat, line: nat, t: Token, j: nat, l: nat)
    requires Scan(input, index, line, false) == Scanned(Ok(t), j, l) && t.kind != EndFile
    ensures var rest := StreamFrom(input, j, l);
      StreamFrom(input, index, line) == TokenStream([t] + rest.tokens, [l] + rest.lines, rest.failure)
  {
  }

  /** A lexer error ends the stream: no more tokens, and the error as its failure. */
  lemma StreamStops(input: string, index: nat, line: nat, e: SyntaxError, j: nat, l: nat)
    requires Scan(input, index, line, false) == Scanned(Err(e), j, l)
    ensures StreamFrom(input, index, line) == TokenStream([], [], Some(e))
  {
  }

  // ----- Line counting -----

  /** Consecutive stretches of the input count their newlines separately. */
  lemma {:induction false} NewlinesSplit(input: string, i: nat, j: nat, k: nat)
    requires i <= j <= k <= |input|
    ensures Newlines(input, i, k) == Newlines(input, i, j) + Newlines(input, j, k)
    decreases j - i
  {
    if i < j {
      NewlinesSplit(input, i + 1, j, k);
    }
  }

  lemma NewlinesThree(input: string, i: nat, j: nat, k: nat, l: nat)
    requires i <= j <= k <= l <= |input|
    ensures Newlines(input, i, l) == Newlines(input, i, j) + Newlines(input, j, k) + Newlines(input, k, l)
  {
    NewlinesSplit(input, i, j, k);
    NewlinesSplit(input, i, k, l);
  }

  lemma {:induction false} NoNewlines(input: string, i: nat, j: nat)
    requires i <= j <= |input|
    requires forall k :: i <= k < j ==> input[k] != '\n'
    ensures Newlines(input, i, j) == 0
    decreases j - i
  {
    if i < j {
      NoNewlines(input, i + 1, j);
    }
  }

  /** Everything the whitespace loop steps over is whitespace. */
  lemma {:induction false} SkippedAreWhitespace(input: string, index: nat, line: nat)
    ensures var c := SkipWhitespace(input, index, line);
      forall k :: index <= k < c.index ==> k < |input| && IsWhitespace(input[k])
    decreases |input| - index
  {
    if index < |input| && IsWhitespace(input[index]) {
      SkippedAreWhitespace(input, index + 1, if input[index] == '\n' then line + 1 else line);
    }
  }

  /** A comment's text holds no newline. */
  lemma {:induction false} CommentHasNoNewline(input: string, i: nat)
    requires i <= |input|
    ensures forall k :: i <= k < CommentEnd(input, i) ==> input[k] != '\n'
    decreases |input| - i
  {
    if i < |input| && input[i] != '\n' {
      CommentHasNoNewline(input, i + 1);
    }
  }

  /** A word is made of `[a-zA-Z0-9_]` only. */
  lemma {:induction false} WordIsLetters(input: string, i: nat)
    requires i <= |input|
    ensures forall k :: i <= k < WordEnd(input, i) ==> IsLetterOrDigit(input[k])
    decreases |input| - i
  {
    if i < |input| && IsLetterOrDigit(input[i]) {
      WordIsLetters(input, i + 1);
    }
  }

  /** The whitespace loop counts one line per newline it steps over. */
  lemma {:induction false} WhitespaceCountsNewlines(input: string, index: nat, line: nat)
    requires index <= |input|
    ensures var ws := SkipWhitespace(input, index, line);
      ws.line == line + Newlines(input, index, ws.index)
    decreases |input| - index
  {
    if index < |input| && IsWhitespace(input[index]) {
      WhitespaceCountsNewlines(input, index + 1, if input[index] == '\n' then line + 1 else line);
    }
  }

  /**
   * In colouring mode the line counter grows by exactly the number of
   * newlines between the old and the new cursor.
   */
  lemma ColouringCountsEveryNewline(input: string, index: nat, line: nat)
    requires index <= |input|
    ensures var s := Scan(input, index, line, true);
      index <= s.index <= |input| && s.line == line + Newlines(input, index, s.index)
  {
    var ws := SkipWhitespace(input, index, line);
    WhitespaceCountsNewlines(input, index, line);
    ColouringStaysOnLine(input, index, line, ws);
    NewlinesSplit(input, index, ws.index, Scan(input, index, line, true).index);
  }

  /** Past the whitespace, a colouring scan crosses no newline and keeps the line. */
  lemma ColouringStaysOnLine(input: string, index: nat, line: nat, ws: Cursor)
    requires index <= |input| && ws == SkipWhitespace(input, index, line)
    ensures var s := Scan(input, index, line, true);
      ws.index <= s.index <= |input| && s.line == ws.line && Newlines(input, ws.index, s.index) == 0
  {
    if StartsComment(input, ws.index) {
      CommentStaysOnLine(input, index, line, ws);
    } else {
      ScanAtToken(input, index, line, true, ws);
      TokenStaysOnLine(input, ws.index, ws.line);
    }
  }

  lemma CommentStaysOnLine(input: string, index: nat, line: nat, ws: Cursor)
    requires index <= |input| && ws == SkipWhitespace(input, index, line) && StartsComment(input, ws.index)
    ensures var s := Scan(input, index, line, true);
      ws.index <= s.index <= |input| && s.line == ws.line && Newlines(input, ws.index, s.index) == 0
  {
    var j := CommentEnd(input, ws.index + 2);
    ScanColouringComment(input, index, line, ws, j);
    CommentHasNoNewline(input, ws.index + 2);
    NoNewlines(input, ws.index, j);
  }

  /** One colouring token starting at a non-whitespace character crosses no newline. */
  lemma TokenStaysOnLine(input: string, i: nat, line: nat)
    requires i <= |input| && (i < |input| ==> !IsWhitespace(input[i]))
    ensures var s := ScanToken(input, i, line, true);
      i <= s.index <= |input| && s.line == line && Newlines(input, i, s.index) == 0
  {
    var s := ScanToken(input, i, line, true);
    ScanTokenShape(input, i, line, true);
    if i < |input| && IsLetterOrDigit(input[i]) {
      WordIsLetters(input, i);
    }
    NoNewlines(input, i, s.index);
  }

  /** A cursor read as a position inside the input. */
  function Clamp(input: string, i: nat): (end: nat)
    ensures end <= |input| && end <= i
    ensures i <= |input| ==> end == i
  {
    if i <= |input| then i else |input|
  }

  /**
   * In strict mode the counter can fall behind: the newline that ends a
   * skipped comment is stepped over without being counted.
   */
  lemma StrictCountsAtMostEveryNewline(input: string, index: nat, line: nat)
    requires index <= |input|
    ensures var s := Scan(input, index, line, false);
      index <= Clamp(input, s.index) && s.line <= line + Newlines(input, index, Clamp(input, s.index))
  {
    StrictSkipCounts(input, index, line);
    var c := Skip(input, index, line, false).at;
    ScanTokenShape(input, c.index, c.line, false);
    var s := ScanToken(input, c.index, c.line, false);
    NewlinesSplit(input, index, Clamp(input, c.index), Clamp(input, s.index));
  }

  /** The same for the skipping alone, by induction over the skipped comments. */
  lemma {:induction false} StrictSkipCounts(input: string, index: nat, line: nat)
    requires index <= |input|
    ensures var k := Skip(input, index, line, false);
      && k.AtToken? && index <= Clamp(input, k.at.index)
      && k.at.line <= line + Newlines(input, index, Clamp(input, k.at.index))
    decreases |input| - index
  {
    var ws := SkipWhitespace(input, index, line);
    WhitespaceCountsNewlines(input, index, line);
    if StartsComment(input, ws.index) {
      var j := CommentEnd(input, ws.index + 2);
      assert Skip(input, index, line, false) == Skip(input, j + 1, ws.line, false);
      if j + 1 <= |input| {
        StrictSkipCounts(input, j + 1, ws.line);
        var c := Skip(input, j + 1, ws.line, false).at;
        LineBoundAcrossComment(input, index, line, ws, j + 1, Clamp(input, c.index), c.line);
      } else {
        assert Skip(input, j + 1, ws.line, false) == AtToken(Cursor(j + 1, ws.line));
        NewlinesSplit(input, index, ws.index, |input|);
      }
    }
  }

  /** The arithmetic of the comment case, with the scans left out. */
  lemma LineBoundAcrossComment(input: string, index: nat, line: nat, ws: Cursor, resume: nat, end: nat, last: nat)
    requires index <= ws.index <= resume <= end <= |input|
    requires ws.line == line + Newlines(input, index, ws.index)
    requires last <= ws.line + Newlines(input, resume, end)
    ensures last <= line + Newlines(input, index, end)
  {
    NewlinesThree(input, index, ws.index, resume, end);
  }

  /** The newline after `//` is consumed but the line stays 1. */
  lemma CommentNewlineNotCounted()
    ensures Newlines("//\nx", 0, 4) == 1
    ensures Scan("//\nx", 0, 1, false) == Scanned(Ok(Token(Id, Some("x"))), 4, 1)
  {
    var input := "//\nx";
    assert CommentEnd(input, 2) == 2;
    assert SkipWhitespace(input, 3, 1) == Cursor(3, 1);
    assert WordEnd(input, 3) == 4;
    assert input[3..4] == "x";
    assert !StartsWithDigitThenLetter("x");
  }

  /** A comment that runs to the end leaves the cursor one past the end. */
  lemma TrailingCommentOvershoots()
    ensures Scan("//", 0, 1, false) == Scanned(Ok(EndOfInput), 3, 1)
  {
    assert CommentEnd("//", 2) == 2;
  }

  // ----- Words -----

  predicate IsWord(w: string) {
    |w| > 0 && forall k :: 0 <= k < |w| ==> IsLetterOrDigit(w[k])
  }

  /** `rest` does not continue the run of word characters before it. */
  predicate EndsWord(rest: string) {
    rest == [] || !IsLetterOrDigit(rest[0])
  }

  /** The word `w` lies at `i`, and the character after it does not continue it. */
  predicate WordAt(input: string, i: nat, w: string) {
    && i + |w| <= |input| && input[i..i + |w|] == w && IsWord(w)
    && (i + |w| < |input| ==> !IsLetterOrDigit(input[i + |w|]))
  }

  lemma {:induction false} WordEndAt(input: string, i: nat, w: string, k: nat)
    requires WordAt(input, i, w) && k <= |w|
    ensures WordEnd(input, i + k) == i + |w|
    decreases |w| - k
  {
    if k < |w| {
      assert input[i + k] == input[i..i + |w|][k] == w[k];
      WordEndAt(input, i, w, k + 1);
    }
  }

  /** No whitespace and no comment at `i`: skipping stops right there. */
  lemma SkipStopsAt(input: string, i: nat, line: nat, colouring: bool)
    requires i < |input| && !IsWhitespace(input[i]) && !StartsComment(input, i)
    ensures Skip(input, i, line, colouring) == AtToken(Cursor(i, line))
  {
    assert SkipWhitespace(input, i, line) == Cursor(i, line);
  }

  /** One blank other than a newline before such a character: skipping steps over it. */
  lemma SkipOneBlank(input: string, i: nat, line: nat, colouring: bool)
    requires i + 1 < |input| && IsWhitespace(input[i]) && input[i] != '\n'
    requires !IsWhitespace(input[i + 1]) && !StartsComment(input, i + 1)
    ensures Skip(input, i, line, colouring) == AtToken(Cursor(i + 1, line))
  {
    assert SkipWhitespace(input, i + 1, line) == Cursor(i + 1, line);
    assert SkipWhitespace(input, i, line) == Cursor(i + 1, line);
  }

  /**
   * Wherever skipping stops, a maximal run of word characters there is
   * scanned as one word, on the line skipping reached, whatever the mode.
   */
  lemma ScanWord(input: string, index: nat, line: nat, colouring: bool, c: Cursor, w: string)
    requires Skip(input, index, line, colouring) == AtToken(c) && WordAt(input, c.index, w)
    ensures Scan(input, index, line, colouring) ==
      Scanned(WordToken(w, c.line, colouring), c.index + |w|, c.line)
  {
    assert input[c.index] == input[c.index..c.index + |w|][0] == w[0];
    WordEndAt(input, c.index, w, 0);
  }

  /**
   * A run of digits is a NUM; a run that starts with a digit and goes on with
   * a letter or `_` is the bad-identifier error (ERROR in colouring mode),
   * with the whole run as its value; any other run is its keyword or an ID,
   * with the run as value.
   */
  lemma WordClassification(w: string, line: nat, colouring: bool)
    requires IsWord(w)
    ensures AllDigits(w) ==> WordToken(w, line, colouring) == Ok(Token(Num, Some(w)))
    ensures IsDigit(w[0]) && !AllDigits(w) ==>
      WordToken(w, line, colouring) ==
        if colouring then Ok(Token(Error, Some(w)))
        else Err(LexError(line, "Identifiers cannot start with a number but found", w))
    ensures !IsDigit(w[0]) ==>
      WordToken(w, line, colouring) ==
        Ok(Token(if KeywordKind(w).Some? then KeywordKind(w).get else Id, Some(w)))
  {
    if IsDigit(w[0]) && !AllDigits(w) {
      var k :| 0 <= k < |w| && !IsDigit(w[k]);
      assert IsLetterOrUnderscore(w[k]);
    }
  }

  /** The spelling of each of the seven keywords. */
  function KeywordSpelling(k: TokenKind): (w: string)
    requires k in {Start, End, Loop, EndLoop, If, EndIf, Else}
    ensures KeywordKind(w) == Some(k)
  {
    match k
    case Start => "program"
    case End => "end_program"
    case Loop => "loop"
    case EndLoop => "end_loop"
    case If => "if"
    case EndIf => "end_if"
    case Else => "else"
  }

  /** The keyword table is one-to-one: only a keyword's own spelling maps to it. */
  lemma KeywordTableIsInverse(w: string, k: TokenKind)
    requires KeywordKind(w) == Some(k)
    ensures k in {Start, End, Loop, EndLoop, If, EndIf, Else} && w == KeywordSpelling(k)
  {
  }

  // ----- The keyword table as a JavaScript object -----

  /**
   * The properties every object literal inherits from `Object.prototype`,
   * all of them spelled with `[a-zA-Z0-9_]` only.
   */
  const PrototypeMembers: set<string> := {
    "constructor", "hasOwnProperty", "isPrototypeOf", "propertyIsEnumerable",
    "toString", "toLocaleString", "valueOf", "__proto__",
    "__defineGetter__", "__defineSetter__", "__lookupGetter__", "__lookupSetter__"
  }

  /** A token type as `keywords[value]` yields it: a kind, or an inherited member. */
  datatype WordType = Kind(kind: TokenKind) | Inherited(member: string)

  /**
   * `keywords[value] ? keywords[value] : 'ID'` as written: the lookup also
   * finds the inherited members, which are truthy, so they become the type.
   */
  function KeywordTypeAsWritten(w: string): WordType {
    if KeywordKind(w).Some? then Kind(KeywordKind(w).get)
    else if w in PrototypeMembers then Inherited(w)
    else Kind(Id)
  }

  /**
   * The lookup as written agrees with `KeywordOrIdentifier` on exactly the
   * words that are not inherited members.
   */
  lemma KeywordTypeAsWrittenDiffers(w: string)
    ensures KeywordTypeAsWritten(w) == Kind(KeywordOrIdentifier(w).kind) <==> w !in PrototypeMembers
  {
    if w in PrototypeMembers {
      assert KeywordKind(w).None? by {
        if KeywordKind(w).Some? {
          KeywordTableIsInverse(w, KeywordKind(w).get);
        }
      }
    }
  }

  /**
   * `constructor` is an identifier, yet as written its token type is the
   * inherited `Object` function, which no parser rule accepts.
   */
  lemma ConstructorIsNotAnId()
    ensures KeywordTypeAsWritten("constructor") == Inherited("constructor")
    ensures Scan("constructor = 1;", 0, 1, false)
      == Scanned(Ok(Token(Id, Some("constructor"))), 11, 1)
  {
    var input, w := "constructor = 1;", "constructor";
    assert IsWord(w) && KeywordKind(w).None?;
    assert input[0..11] == w;
    SkipStopsAt(input, 0, 1, false);
    ScanIdentifier(input, 0, 1, false, Cursor(0, 1), w);
  }

  /** Wherever skipping stops, a keyword there is scanned as its keyword token in both modes. */
  lemma ScanKeyword(k: TokenKind, input: string, index: nat, line: nat, colouring: bool, c: Cursor)
    requires k in {Start, End, Loop, EndLoop, If, EndIf, Else}
    requires Skip(input, index, line, colouring) == AtToken(c) && WordAt(input, c.index, KeywordSpelling(k))
    ensures Scan(input, index, line, colouring) ==
      Scanned(Ok(Token(k, Some(KeywordSpelling(k)))), c.index + |KeywordSpelling(k)|, c.line)
  {
    var w := KeywordSpelling(k);
    ScanWord(input, index, line, colouring, c, w);
    WordClassification(w, c.line, colouring);
  }

  /** Wherever skipping stops, any other identifier is an ID whose value is its own text. */
  lemma ScanIdentifier(input: string, index: nat, line: nat, colouring: bool, c: Cursor, w: string)
    requires Skip(input, index, line, colouring) == AtToken(c) && WordAt(input, c.index, w)
    requires IsLetterOrUnderscore(w[0]) && KeywordKind(w).None?
    ensures Scan(input, index, line, colouring) == Scanned(Ok(Token(Id, Some(w))), c.index + |w|, c.line)
  {
    ScanWord(input, index, line, colouring, c, w);
    WordClassification(w, c.line, colouring);
  }

  /** `9abc` in strict mode: a lexer error on line 1 whose value is all of `9abc`. */
  lemma DigitStartedIdentifier()
    ensures Scan("9abc", 0, 1, false) ==
      Scanned(Err(LexError(1, "Identifiers cannot start with a number but found", "9abc")), 4, 1)
    ensures Scan("9abc", 0, 1, true) == Scanned(Ok(Token(Error, Some("9abc"))), 4, 1)
  {
    var input := "9abc";
    assert input[0..4] == input;
    SkipStopsAt(input, 0, 1, false);
    SkipStopsAt(input, 0, 1, true);
    ScanWord(input, 0, 1, false, Cursor(0, 1), input);
    ScanWord(input, 0, 1, true, Cursor(0, 1), input);
    assert !IsDigit(input[1]);
    WordClassification(input, 1, false);
    WordClassification(input, 1, true);
  }

  // ----- Operators -----

  /**
   * The lexemes the operator table names: every character `#isOperator`
   * accepts, and the four two-character operators.
   */
  predicate InOperatorTable(lexeme: string) {
    (|lexeme| == 1 && IsOperatorChar(lexeme[0])) || lexeme in {"!=", "==", ">=", "=<"}
  }

  /** Exactly the lexemes outside the table fall back to OTHER_OP. */
  lemma OperatorTableDomain(lexeme: string)
    ensures OperatorKind(lexeme) != OtherOp <==> InOperatorTable(lexeme)
  {
  }

  /** `rest` would turn the single character `c` into a longer lexeme or a comment. */
  predicate Continues(c: char, rest: string) {
    rest != [] &&
    ((c == '!' && rest[0] == '=') || (c == '=' && (rest[0] == '=' || rest[0] == '<'))
     || (c == '>' && rest[0] == '=') || (c == '/' && rest[0] == '/'))
  }

  /** Wherever skipping stops at an operator character, `#handleOperator` makes the token. */
  lemma ScanOperatorStart(input: string, index: nat, line: nat, colouring: bool, c: Cursor)
    requires Skip(input, index, line, colouring) == AtToken(c)
    requires c.index < |input| && IsOperatorChar(input[c.index])
    ensures var (lexeme, j) := OperatorLexeme(input, c.index);
      Scan(input, index, line, colouring) == Scanned(Ok(Token(OperatorKind(lexeme), Some(lexeme))), j, c.line)
  {
  }

  /** Wherever skipping stops, a single operator character is its table entry, one character long. */
  lemma ScanSingleOperator(ch: char, input: string, index: nat, line: nat, colouring: bool, c: Cursor)
    requires Skip(input, index, line, colouring) == AtToken(c)
    requires c.index < |input| && input[c.index] == ch
    requires IsOperatorChar(ch) && !Continues(ch, input[c.index + 1..])
    ensures OperatorKind([ch]) != OtherOp
    ensures Scan(input, index, line, colouring) ==
      Scanned(Ok(Token(OperatorKind([ch]), Some([ch]))), c.index + 1, c.line)
  {
    assert c.index + 1 < |input| ==> input[c.index + 1] == input[c.index + 1..][0];
    ScanOperatorStart(input, index, line, colouring, c);
  }

  /**
   * Wherever skipping stops at two characters, the first an operator, this
   * is what `#handleOperator` makes of them.
   */
  lemma ScanOperatorPair(a: char, b: char, input: string, index: nat, line: nat, colouring: bool, c: Cursor)
    requires Skip(input, index, line, colouring) == AtToken(c)
    requires c.index + 1 < |input| && input[c.index] == a && input[c.index + 1] == b && IsOperatorChar(a)
    ensures var lexeme := if (a == '!' || a == '>') && b == '=' then [a, b]
                          else if a == '=' && (b == '=' || b == '<') then "=" + Undefined
                          else [a];
      Scan(input, index, line, colouring) ==
        Scanned(Ok(Token(OperatorKind(lexeme), Some(lexeme))), c.index + if lexeme == [a] then 1 else 2, c.line)
  {
    ScanOperatorStart(input, index, line, colouring, c);
  }

  /**
   * Wherever skipping stops: `!=` and `>=` are combined; `==` and `=<`
   * consume two characters but their lexeme is `=undefined`, so the kind is
   * OTHER_OP; `<=` is not combined at all.
   */
  lemma ScanTwoCharacterOperators(input: string, index: nat, line: nat, colouring: bool, c: Cursor)
    requires Skip(input, index, line, colouring) == AtToken(c) && c.index + 2 <= |input|
    ensures var s := Scan(input, index, line, colouring);
      var pair := input[c.index..c.index + 2];
      && (pair == "!=" ==> s == Scanned(Ok(Token(NotEqual, Some("!="))), c.index + 2, c.line))
      && (pair == ">=" ==> s == Scanned(Ok(Token(GreaterEqual, Some(">="))), c.index + 2, c.line))
      && (pair == "==" ==> s == Scanned(Ok(Token(OtherOp, Some("=undefined"))), c.index + 2, c.line))
      && (pair == "=<" ==> s == Scanned(Ok(Token(OtherOp, Some("=undefined"))), c.index + 2, c.line))
      && (pair == "<=" ==> s == Scanned(Ok(Token(Less, Some("<"))), c.index + 1, c.line))
  {
    var a, b := input[c.index], input[c.index + 1];
    var pair := input[c.index..c.index + 2];
    assert pair == [a, b];
    assert "=" + Undefined == "=undefined";
    if IsOperatorChar(a) {
      ScanOperatorPair(a, b, input, index, line, colouring, c);
    }
  }

  // ----- Comments -----

  /**
   * In colouring mode `//` up to (not including) the next newline is one
   * COMMENT token whose value is that text, and nothing else moves.
   */
  lemma ColouringComment(input: string, i: nat, line: nat)
    requires StartsComment(input, i)
    ensures var j := CommentEnd(input, i + 2);
      Scan(input, i, line, true) == Scanned(Ok(Token(Comment, Some(input[i..j]))), j, line)
      && (j == |input| || input[j] == '\n')
      && forall k :: i <= k < j ==> input[k] != '\n'
  {
    var j := CommentEnd(input, i + 2);
    CommentHasNoNewline(input, i + 2);
    assert input[i..j] == "//" + input[i + 2..j];
  }

  /**
   * In strict mode the comment and the character after it vanish: scanning
   * resumes after the newline, on the same line number.
   */
  lemma StrictSkipsComment(input: string, i: nat, line: nat)
    requires StartsComment(input, i)
    ensures Scan(input, i, line, false) == Scan(input, CommentEnd(input, i + 2) + 1, line, false)
  {
  }

  // ----- Colouring mode keeps every character -----

  predicate AllWhitespace(s: string) {
    forall k :: 0 <= k < |s| ==> IsWhitespace(s[k])
  }

  lemma WordTokenValue(w: string, line: nat)
    requires |w| > 0
    ensures WordToken(w, line, true).Ok? && WordToken(w, line, true).value.value == Some(w)
  {
  }

  /** Past the whitespace, a colouring token's value is the text it consumed. */
  lemma ColouringTokenText(input: string, i: nat, line: nat)
    requires i < |input|
    ensures var s := ScanToken(input, i, line, true);
      s.result.value.value == Some(input[i..s.index])
      || (input[i..s.index] in {"==", "=<"} && s.result.value.value == Some("=undefined"))
  {
    if IsLetterOrDigit(input[i]) {
      WordTokenValue(input[i..WordEnd(input, i)], line);
    } else if IsOperatorChar(input[i]) {
      var (lexeme, j) := OperatorLexeme(input, i);
      if j == i + 2 {
        assert input[i..j] == [input[i], input[i + 1]];
        if input[i] == '=' {
          assert "=" + Undefined == "=undefined";
          assert input[i..j] == "==" || input[i..j] == "=<";
        } else {
          assert lexeme == input[i..j];
        }
      } else {
        assert input[i..j] == [input[i]];
      }
    } else {
      assert input[i..i + 1] == [input[i]];
    }
  }

  /**
   * In colouring mode a token's value is exactly the text between the end of
   * the skipped whitespace and the new cursor, except for `==` and `=<`,
   * whose value is `=undefined`.
   */
  lemma ColouringTokenIsItsText(input: string, index: nat, line: nat)
    requires index <= |input|
    ensures var s := Scan(input, index, line, true);
      var ws := SkipWhitespace(input, index, line).index;
      && index <= ws <= s.index <= |input|
      && AllWhitespace(input[index..ws])
      && (s.result.value.kind == EndFile <==> ws == |input|)
      && (s.result.value.kind != EndFile ==>
            s.result.value.value == Some(input[ws..s.index])
            || (input[ws..s.index] in {"==", "=<"} && s.result.value.value == Some("=undefined")))
  {
    var c := SkipWhitespace(input, index, line);
    SkippedIsWhitespace(input, index, line);
    if StartsComment(input, c.index) {
      CommentIsItsText(input, index, line, c);
    } else {
      ScanAtToken(input, index, line, true, c);
      ScanTokenShape(input, c.index, c.line, true);
      if c.index < |input| {
        ColouringTokenText(input, c.index, c.line);
      }
    }
  }

  /** The text the whitespace loop steps over. */
  lemma SkippedIsWhitespace(input: string, index: nat, line: nat)
    requires index <= |input|
    ensures var ws := SkipWhitespace(input, index, line).index;
      index <= ws <= |input| && AllWhitespace(input[index..ws])
  {
    var ws := SkipWhitespace(input, index, line).index;
    SkippedAreWhitespace(input, index, line);
    forall k | 0 <= k < ws - index ensures IsWhitespace(input[index..ws][k]) {
      assert input[index..ws][k] == input[index + k];
    }
  }

  /** A COMMENT token's value is the text from the marker to the end of the line. */
  lemma CommentIsItsText(input: string, index: nat, line: nat, ws: Cursor)
    requires index <= |input| && ws == SkipWhitespace(input, index, line) && StartsComment(input, ws.index)
    ensures var s := Scan(input, index, line, true);
      ws.index < s.index <= |input| && s.result == Ok(Token(Comment, Some(input[ws.index..s.index])))
  {
    var j := CommentEnd(input, ws.index + 2);
    ScanColouringComment(input, index, line, ws, j);
    assert input[ws.index..j] == "//" + input[ws.index + 2..j];
  }
}
