/**
 * The meaning of one call of `Lexer.nextToken(colorizingText)`, as pure
 * functions of the input text, the cursor and the line counter.  The class
 * `Lexing.Lexer` implements these with the source's loops and is proved equal
 * to them; the lemmas in `ScannerFacts` state what the functions promise.
 *
 * A read past the end of the string is `undefined` in JavaScript; here every
 * such read is an explicit bounds test.
 */
module Scanner {
  import opened Tokens

  /** JavaScript's `\s` class: the fixed set of whitespace code points. */
  predicate IsWhitespace(c: char) {
    var n := c as int;
    (0x09 <= n <= 0x0D) || n == 0x20 || n == 0xA0 || n == 0x1680
    || (0x2000 <= n <= 0x200A) || n == 0x2028 || n == 0x2029
    || n == 0x202F || n == 0x205F || n == 0x3000 || n == 0xFEFF
  }

  /** `[a-zA-Z0-9_]` */
  predicate IsLetterOrDigit(c: char) {
    ('a' <= c <= 'z') || ('A' <= c <= 'Z') || IsDigit(c) || c == '_'
  }

  /** `[a-zA-Z_]` */
  predicate IsLetterOrUnderscore(c: char) {
    ('a' <= c <= 'z') || ('A' <= c <= 'Z') || c == '_'
  }

  /** `[+\-*\/%():><;=!]` */
  predicate IsOperatorChar(c: char) {
    c in {'+', '-', '*', '/', '%', '(', ')', ':', '>', '<', ';', '=', '!'}
  }

  /** `input[i] === c`, which is false when `i` is past the end. */
  predicate At(input: string, i: nat, c: char) {
    i < |input| && input[i] == c
  }

  /** Two slashes at `i` open a comment. */
  predicate StartsComment(input: string, i: nat) {
    At(input, i, '/') && At(input, i + 1, '/')
  }

  /** The number of newlines in `input[i..j]`. */
  function Newlines(input: string, i: nat, j: nat): nat
    requires i <= j <= |input|
    decreases j - i
  {
    if i == j then 0 else (if input[i] == '\n' then 1 else 0) + Newlines(input, i + 1, j)
  }

  /** The lexer's cursor and line counter. */
  datatype Cursor = Cursor(index: nat, line: nat)

  /** The result of one `nextToken` call and the cursor it leaves behind. */
  datatype Scanned = Scanned(result: Result<Token>, index: nat, line: nat)

  /**
   * The whitespace loop: skips whitespace, counting one line per newline.
   */
  function SkipWhitespace(input: string, index: nat, line: nat): (c: Cursor)
    ensures index <= c.index && line <= c.line
    ensures index > |input| ==> c == Cursor(index, line)
    ensures index <= |input| ==> c.index <= |input|
    ensures c.index < |input| ==> !IsWhitespace(input[c.index])
    decreases |input| - index
  {
    if index < |input| && IsWhitespace(input[index]) then
      SkipWhitespace(input, index + 1, if input[index] == '\n' then line + 1 else line)
    else
      Cursor(index, line)
  }

  /** Where the comment loop stops: at the next newline or at the end. */
  function CommentEnd(input: string, i: nat): (j: nat)
    requires i <= |input|
    ensures i <= j <= |input|
    ensures j < |input| ==> input[j] == '\n'
    decreases |input| - i
  {
    if i < |input| && input[i] != '\n' then CommentEnd(input, i + 1) else i
  }

  /** Where the identifier loop stops: after a maximal run of `[a-zA-Z0-9_]`. */
  function WordEnd(input: string, i: nat): (j: nat)
    requires i <= |input|
    ensures i <= j <= |input|
    ensures j < |input| ==> !IsLetterOrDigit(input[j])
    decreases |input| - i
  {
    if i < |input| && IsLetterOrDigit(input[i]) then WordEnd(input, i + 1) else i
  }

  predicate AllDigits(w: string) {
    |w| > 0 && forall k :: 0 <= k < |w| ==> IsDigit(w[k])
  }

  /**
   * A run that starts with a digit and in which a letter or `_` follows;
   * the loop of `#handleLetterOrDigit` raises its flag on exactly these.
   */
  predicate StartsWithDigitThenLetter(w: string) {
    |w| > 0 && IsDigit(w[0]) && exists k :: 1 <= k < |w| && IsLetterOrUnderscore(w[k])
  }

  const IdStartsWithNumMessage: string := "Identifiers cannot start with a number but found"
  const UnknownTokenMessage: string := "Unknown Token"

  /** The keyword table, read as a dictionary of its own seven entries. */
  function KeywordKind(w: string): Option<TokenKind> {
    if w == "program" then Some(Start)
    else if w == "end_program" then Some(End)
    else if w == "loop" then Some(Loop)
    else if w == "end_loop" then Some(EndLoop)
    else if w == "if" then Some(If)
    else if w == "end_if" then Some(EndIf)
    else if w == "else" then Some(Else)
    else None
  }

  /** `#handleKeywordsAndIdentifiers`: a keyword token, or else an ID. */
  function KeywordOrIdentifier(w: string): Token {
    match KeywordKind(w)
    case Some(k) => Token(k, Some(w))
    case None => Token(Id, Some(w))
  }

  /** `#handleLexerErrorIDStartsWithNum`: an ERROR token, or the lexer error. */
  function IdStartsWithNum(w: string, line: nat, colouring: bool): Result<Token> {
    if colouring then Ok(Token(Error, Some(w)))
    else Err(LexError(line, IdStartsWithNumMessage, w))
  }

  /** What `#handleLetterOrDigit` makes of the run `w`. */
  function WordToken(w: string, line: nat, colouring: bool): Result<Token> {
    if StartsWithDigitThenLetter(w) then IdStartsWithNum(w, line, colouring)
    else if AllDigits(w) then Ok(Token(Num, Some(w)))
    else Ok(KeywordOrIdentifier(w))
  }

  /**
   * What `thisOperator += this.#input[this.index]` appends: `this.index` is
   * not a field of the lexer, so the read is `undefined` and string
   * concatenation spells it out.
   */
  const Undefined: string := "undefined"

  /**
   * `#handleOperator`'s lexeme and the cursor after it.  The `==` and `=<`
   * branches consume two characters but append `Undefined` (a defect of the
   * source, kept here).
   */
  function OperatorLexeme(input: string, i: nat): (r: (string, nat))
    requires i < |input|
    ensures r.1 == i + 1 || (r.1 == i + 2 && r.1 <= |input|)
  {
    var c := input[i];
    if c == '!' && At(input, i + 1, '=') then ("!=", i + 2)
    else if c == '=' && At(input, i + 1, '=') then ("=" + Undefined, i + 2)
    else if c == '=' && At(input, i + 1, '<') then ("=" + Undefined, i + 2)
    else if c == '>' && At(input, i + 1, '=') then (">=", i + 2)
    else ([c], i + 1)
  }

  /** `#getOperatorToken`: the operator table, OTHER_OP for anything else. */
  function OperatorKind(lexeme: string): TokenKind {
    if |lexeme| == 1 then SingleOperatorKind(lexeme[0])
    else if lexeme == "!=" then NotEqual
    else if lexeme == "==" then Equal
    else if lexeme == ">=" then GreaterEqual
    else if lexeme == "=<" then LessEqual
    else OtherOp
  }

  /** The one-character entries of the operator table. */
  function SingleOperatorKind(c: char): TokenKind {
    match c
    case '+' => Add
    case '-' => Sub
    case '*' => Mult
    case '/' => Div
    case '%' => Remain
    case ';' => Semi
    case '=' => Assign
    case '<' => Less
    case '>' => Greater
    case '(' => LeftPar
    case ')' => RightPar
    case ':' => Colon
    case '!' => Not
    case _ => OtherOp
  }

  /** `#handleUnknownToken`: an ERROR token, or the lexer error. */
  function UnknownToken(c: char, line: nat, colouring: bool): Result<Token> {
    if colouring then Ok(Token(Error, Some([c])))
    else Err(LexError(line, UnknownTokenMessage, [c]))
  }

  /**
   * `nextToken` once whitespace and comments are behind the cursor: END-FILE
   * at the end, else a word, an operator or an unknown character.
   */
  function ScanToken(input: string, i: nat, line: nat, colouring: bool): (s: Scanned)
  {
    if i >= |input| then Scanned(Ok(EndOfInput), i, line)
    else if IsLetterOrDigit(input[i]) then
      var j := WordEnd(input, i);
      Scanned(WordToken(input[i..j], line, colouring), j, line)
    else if IsOperatorChar(input[i]) then
      var (lexeme, j) := OperatorLexeme(input, i);
      Scanned(Ok(Token(OperatorKind(lexeme), Some(lexeme))), j, line)
    else
      Scanned(UnknownToken(input[i], line, colouring), i + 1, line)
  }

  /**
   * One token past the whitespace: the line stays; END-FILE exactly at the
   * end; otherwise the cursor moves forward and stays inside the input;
   * colouring never fails; failures are lexer errors on the current line;
   * EQUAL, LESS-EQUAL and COMMENT never come out, nor ERROR in strict mode.
   */
  lemma ScanTokenShape(input: string, i: nat, line: nat, colouring: bool)
    ensures var s := ScanToken(input, i, line, colouring);
      && s.line == line && i <= s.index
      && (i >= |input| ==> s == Scanned(Ok(EndOfInput), i, line))
      && (i < |input| ==> i < s.index <= |input| && (s.result.Err? || s.result.value.kind != EndFile))
      && (colouring ==> s.result.Ok?)
      && (s.result.Err? ==> !colouring && s.result.error.LexError? && s.result.error.line == line)
      && (s.result.Ok? ==> s.result.value.kind !in {Equal, LessEqual, Comment})
      && (!colouring && s.result.Ok? ==> s.result.value.kind != Error)
  {
  }

  /** The value of a COMMENT token: the marker and the rest of the line. */
  function CommentText(input: string, start: nat, j: nat): string
    requires start + 2 <= j <= |input|
  {
    "//" + input[start + 2..j]
  }

  function Remaining(input: string, index: nat): nat {
    if index <= |input| then |input| + 1 - index else 0
  }

  /**
   * Where `#skipWhitespaceAndCommentsExceptWhenColorizingInputTokens` leaves
   * a call of `nextToken`: at the first character of a token, or with the
   * COMMENT token that colouring mode returns.
   */
  datatype Skipped = AtToken(at: Cursor) | Commented(s: Scanned)

  /**
   * Whitespace, then comments: in colouring mode a comment is a COMMENT
   * token; in strict mode the comment and the character after it are skipped
   * (that character is the newline that ends the comment, and no line is
   * counted for it) and skipping starts again.
   */
  function Skip(input: string, index: nat, line: nat, colouring: bool): Skipped
    decreases Remaining(input, index)
  {
    var ws := SkipWhitespace(input, index, line);
    if StartsComment(input, ws.index) then
      var j := CommentEnd(input, ws.index + 2);
      if colouring then
        Commented(Scanned(Ok(Token(Comment, Some(CommentText(input, ws.index, j)))), j, ws.line))
      else
        Skip(input, j + 1, ws.line, false)
    else
      AtToken(ws)
  }

  /** One call of `nextToken(colouring)` from cursor `index` and line `line`. */
  function Scan(input: string, index: nat, line: nat, colouring: bool): Scanned {
    match Skip(input, index, line, colouring)
    case Commented(s) => s
    case AtToken(c) => ScanToken(input, c.index, c.line, colouring)
  }

  /** After whitespace that runs to the end, `Scan` gives END-FILE. */
  lemma ScanAtEnd(input: string, index: nat, line: nat, colouring: bool, ws: Cursor)
    requires ws == SkipWhitespace(input, index, line) && ws.index >= |input|
    ensures Scan(input, index, line, colouring) == Scanned(Ok(EndOfInput), ws.index, ws.line)
  {
  }

  /** After whitespace and a comment ending at `j`, colouring: the COMMENT token. */
  lemma ScanColouringComment(input: string, index: nat, line: nat, ws: Cursor, j: nat)
    requires ws == SkipWhitespace(input, index, line) && StartsComment(input, ws.index)
    requires j == CommentEnd(input, ws.index + 2)
    ensures Scan(input, index, line, true)
      == Scanned(Ok(Token(Comment, Some(CommentText(input, ws.index, j)))), j, ws.line)
  {
  }

  /** After whitespace and a comment ending at `j`, strict: a fresh scan one past `j`. */
  lemma ScanStrictComment(input: string, index: nat, line: nat, ws: Cursor, j: nat)
    requires ws == SkipWhitespace(input, index, line) && StartsComment(input, ws.index)
    requires j == CommentEnd(input, ws.index + 2)
    ensures Scan(input, index, line, false) == Scan(input, j + 1, ws.line, false)
  {
    assert Skip(input, index, line, false) == Skip(input, j + 1, ws.line, false);
  }

  /** After whitespace that is followed by no comment: one token. */
  lemma ScanAtToken(input: string, index: nat, line: nat, colouring: bool, ws: Cursor)
    requires ws == SkipWhitespace(input, index, line) && !StartsComment(input, ws.index)
    ensures Scan(input, index, line, colouring) == ScanToken(input, ws.index, ws.line, colouring)
  {
  }

  /**
   * What every `nextToken` call guarantees: the cursor and the line never go
   * back; END-FILE is the `null`-valued token and comes only at the end; any
   * other token or error moves the cursor forward and stays inside the
   * input; colouring never throws; only the strict lexer throws, and only
   * lexer errors; EQUAL and LESS-EQUAL never occur; the strict lexer yields
   * neither COMMENT nor ERROR tokens.
   */
  predicate WellScanned(input: string, index: nat, line: nat, colouring: bool, s: Scanned) {
    && index <= s.index && line <= s.line
    && (index <= |input| + 1 ==> s.index <= |input| + 1)
    && (colouring && index <= |input| ==> s.index <= |input|)
    && (s.result.Ok? && s.result.value.kind == EndFile ==> s.result.value == EndOfInput && s.index >= |input|)
    && (s.result.Err? || s.result.value.kind != EndFile ==> index < s.index <= |input|)
    && (colouring ==> s.result.Ok?)
    && (s.result.Err? ==> !colouring && s.result.error.LexError?)
    && (s.result.Ok? ==> s.result.value.kind !in {Equal, LessEqual})
    && (!colouring && s.result.Ok? ==> s.result.value.kind !in {Comment, Error})
  }

  /**
   * What the skipping guarantees: nothing goes back; a token starts at no
   * comment and at most one past the end (inside the input in colouring
   * mode); a COMMENT token comes only in colouring mode and lies inside the
   * input.
   */
  predicate WellSkipped(input: string, index: nat, line: nat, colouring: bool, k: Skipped) {
    match k
    case AtToken(c) =>
      && index <= c.index && line <= c.line && !StartsComment(input, c.index)
      && (index <= |input| + 1 ==> c.index <= |input| + 1)
      && (colouring && index <= |input| ==> c.index <= |input|)
    case Commented(s) =>
      && colouring && index < s.index <= |input| && line <= s.line
      && s.result.Ok? && s.result.value.kind == Comment
  }

  lemma {:induction false} SkipShape(input: string, index: nat, line: nat, colouring: bool)
    ensures WellSkipped(input, index, line, colouring, Skip(input, index, line, colouring))
    decreases Remaining(input, index)
  {
    var ws := SkipWhitespace(input, index, line);
    if StartsComment(input, ws.index) && !colouring {
      var j := CommentEnd(input, ws.index + 2);
      SkipShape(input, j + 1, ws.line, false);
    }
  }

  lemma ScanShape(input: string, index: nat, line: nat, colouring: bool)
    ensures WellScanned(input, index, line, colouring, Scan(input, index, line, colouring))
  {
    SkipShape(input, index, line, colouring);
    match Skip(input, index, line, colouring)
    case Commented(s) =>
    case AtToken(c) => ScanTokenShape(input, c.index, c.line, colouring);
  }

  /**
   * The strict tokens from a cursor on, up to END-FILE or up to a lexer
   * error, each with the value `inputCodeline` has right after it was read
   * (the line a parser error reports while that token is the lookahead).
   */
  datatype TokenStream = TokenStream(tokens: seq<Token>, lines: seq<nat>, failure: Option<SyntaxError>)

  /**
   * A stream the lexer can produce: one line per token; END-FILE only as
   * the last token, and then there is no failure; without a failure the
   * stream ends with END-FILE; failures are lexer errors.
   */
  predicate WellFormedStream(s: TokenStream) {
    && |s.lines| == |s.tokens|
    && (s.failure.None? ==> |s.tokens| > 0 && s.tokens[|s.tokens| - 1] == EndOfInput)
    && (forall k :: 0 <= k < |s.tokens| && s.tokens[k].kind == EndFile ==>
          k == |s.tokens| - 1 && s.failure.None?)
    && (s.failure.Some? ==> s.failure.get.LexError?)
  }

  /** The tokens the parser pulls one by one, as one stream. */
  function StreamFrom(input: string, index: nat, line: nat): (s: TokenStream)
    ensures WellFormedStream(s)
    ensures forall k :: 0 <= k < |s.tokens| ==> s.tokens[k].kind !in {Comment, Error, Equal, LessEqual}
    decreases Remaining(input, index)
  {
    var s := Scan(input, index, line, false);
    ScanShape(input, index, line, false);
    match s.result
    case Err(e) => TokenStream([], [], Some(e))
    case Ok(t) =>
      if t.kind == EndFile then TokenStream([t], [s.line], None)
      else
        var rest := StreamFrom(input, s.index, s.line);
        TokenStream([t] + rest.tokens, [s.line] + rest.lines, rest.failure)
  }

  /** The tokens of one colouring pass, END-FILE left out, and the cursor after it. */
  datatype Coloured = Coloured(tokens: seq<Token>, index: nat, line: nat)

  /** The loop of `colorInputTokenizer`: colouring tokens until the end of input. */
  function ColourAll(input: string, index: nat, line: nat): (c: Coloured)
    ensures forall k :: 0 <= k < |c.tokens| ==> c.tokens[k].kind != EndFile && c.tokens[k].value.Some?
    ensures forall k :: 0 <= k < |c.tokens| ==> c.tokens[k].kind !in {Equal, LessEqual}
    ensures c.index >= |input| && (index <= |input| ==> c.index == |input|)
    decreases Remaining(input, index)
  {
    if index >= |input| then Coloured([], index, line)
    else
      var s := Scan(input, index, line, true);
      ScanShape(input, index, line, true);
      var t := s.result.value;
      var rest := ColourAll(input, s.index, s.line);
      Coloured((if t.kind == EndFile then [] else [t]) + rest.tokens, rest.index, rest.line)
  }

  /**
   * The `hasError` step of `colorInputTokenizer`: the token at `parserIndex`
   * becomes an ERROR token with the same value.  `None` is the TypeError
   * JavaScript throws when there is no token at that index.
   */
  function MarkError(tokens: seq<Token>, hasError: bool, parserIndex: int): (r: Option<seq<Token>>)
    ensures r.None? <==> hasError && !(0 <= parserIndex < |tokens|)
    ensures r.Some? ==> |r.get| == |tokens|
    ensures r.Some? ==> forall k :: 0 <= k < |tokens| && (!hasError || k != parserIndex) ==> r.get[k] == tokens[k]
    ensures r.Some? && hasError ==> r.get[parserIndex] == Token(Error, tokens[parserIndex].value)
  {
    if !hasError then Some(tokens)
    else if 0 <= parserIndex < |tokens| then
      Some(tokens[parserIndex := Token(Error, tokens[parserIndex].value)])
    else None
  }
}
