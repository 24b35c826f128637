/**
 * Tokens of the toy language, the two kinds of syntax error the recogniser
 * raises, and the result types that stand in for `throw new SyntaxError(...)`.
 */
module Tokens {

  /** The closed set of token types; `Name()` gives the exact wire string. */
  datatype TokenKind =
    | Start | End | Loop | EndLoop | If | EndIf | Else
    | Id | Num
    | Add | Sub | Mult | Div | Remain | Semi | Assign | Less | Greater
    | LeftPar | RightPar | Colon | Not | NotEqual | Equal | GreaterEqual | LessEqual
    | Comment | Error | EndFile | OtherOp
  {
    function Name(): string {
      match this
      case Start => "START"
      case End => "END"
      case Loop => "LOOP"
      case EndLoop => "END-LOOP"
      case If => "IF"
      case EndIf => "END-IF"
      case Else => "ELSE"
      case Id => "ID"
      case Num => "NUM"
      case Add => "ADD"
      case Sub => "SUB"
      case Mult => "MULT"
      case Div => "DIV"
      case Remain => "REMAIN"
      case Semi => "SEMI"
      case Assign => "ASSIGN"
      case Less => "LESS"
      case Greater => "GREATER"
      case LeftPar => "LEFT_PAR"
      case RightPar => "RIGHT_PAR"
      case Colon => "COLON"
      case Not => "NOT"
      case NotEqual => "NOT-EQUAL"
      case Equal => "EQUAL"
      case GreaterEqual => "GREATER-EQUAL"
      case LessEqual => "LESS-EQUAL"
      case Comment => "COMMENT"
      case Error => "ERROR"
      case EndFile => "END-FILE"
      case OtherOp => "OTHER_OP"
    }
  }

  /** A token: its type and its text; `None` is the JavaScript `null` of END-FILE. */
  datatype Token = Token(kind: TokenKind, value: Option<string>)

  datatype Option<T> = None | Some(get: T)

  /** The token every read at or past the end of the input produces. */
  const EndOfInput: Token := Token(EndFile, None)

  /** What the parser found wrong; `Text()` is the message it throws. */
  datatype Problem =
    | Mismatch(expected: seq<TokenKind>, found: TokenKind)
    | UnexpectedEnd
    | NoStatement(found: TokenKind)
  {
    function Text(): string {
      match this
      case Mismatch(expected, found) =>
        "Expected token type " + Join(expected) + " but found " + found.Name()
      case UnexpectedEnd => "End of program reached unexpectedly."
      case NoStatement(found) => "Expected types ID, LOOP, or IF but received " + found.Name()
    }
  }

  /** `expectedTypes.join(", ")`; a single type prints as itself. */
  function Join(kinds: seq<TokenKind>): string {
    if |kinds| == 0 then ""
    else if |kinds| == 1 then kinds[0].Name()
    else kinds[0].Name() + ", " + Join(kinds[1..])
  }

  /** The two errors the core throws, with what their message is built from. */
  datatype SyntaxError =
    | LexError(line: nat, message: string, value: string)
    | ParseError(line: nat, problem: Problem)
  {
    /** The `message` of the thrown `SyntaxError`. */
    function Text(): string {
      match this
      case LexError(line, message, value) =>
        "Lexer Error (Line: " + Decimal(line) + ") " + message + ": " + value
      case ParseError(line, problem) =>
        "Parser Error: (Line: " + Decimal(line) + ") " + problem.Text()
    }
  }

  /** A value or the error that was thrown instead. */
  datatype Result<T> = Ok(value: T) | Err(error: SyntaxError)

  /** Normal completion or the error that was thrown. */
  datatype Outcome = Pass | Fail(error: SyntaxError)

  predicate IsDigit(c: char) {
    '0' <= c <= '9'
  }

  /** The decimal text JavaScript's template literals give a line number. */
  function Decimal(n: nat): (s: string)
    ensures |s| >= 1
    ensures forall i :: 0 <= i < |s| ==> IsDigit(s[i])
    ensures |s| > 1 ==> s[0] != '0'
  {
    if n < 10 then [Digit(n)] else Decimal(n / 10) + [Digit(n % 10)]
  }

  function Digit(d: nat): (c: char)
    requires d < 10
    ensures IsDigit(c) && c as int - '0' as int == d
  {
    ('0' as int + d) as char
  }

  /** Reads a digit string back; the inverse of `Decimal`. */
  function DecimalValue(s: string): nat
    requires forall i :: 0 <= i < |s| ==> IsDigit(s[i])
  {
    if s == [] then 0
    else
      var d := s[|s| - 1] as int - '0' as int;
      assert IsDigit(s[|s| - 1]);
      10 * DecimalValue(s[..|s| - 1]) + d
  }

  /** Different line numbers are rendered differently in error messages. */
  lemma {:induction false} DecimalRoundTrip(n: nat)
    ensures DecimalValue(Decimal(n)) == n
  {
    if n >= 10 {
      var s := Decimal(n);
      assert s[..|s| - 1] == Decimal(n / 10);
      DecimalRoundTrip(n / 10);
    }
  }
}
