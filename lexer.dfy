/** The scanner of the oxy-python front end: data types for positions, tokens
    and lexing errors, a functional specification of the scan, and the
    imperative scanner `Lex` proved equal to it. */
module Lexer {

  datatype Option<T> = None | Some(value: T)

  /** A position. The declared meaning is (line, column), both counted from 1;
      the scanner stores them transposed (see `Scan`). */
  datatype Location = Location(line: nat, column: nat)

  /** `Location::new`: the first argument becomes `line`, the second `column`. */
  function NewLocation(line: nat, column: nat): (l: Location)
    ensures l.line == line && l.column == column
  {
    Location(line, column)
  }

  /** Every kind of token the language declares. Only the four arithmetic
      operators `Plus`, `Minus`, `Star` and `Slash` are ever produced. */
  datatype TokenType =
    | Plus
    | Minus
    | Star
    | StarStar
    | Slash
    | Name(text: string)
    | If
    | Else
    | Indent
    | Dedent

  datatype Token = Token(start: Location, end: Location, tokenType: TokenType)

  /** `Token::is_type`: structural equality of the token's kind with `other`,
      payload of `Name` included. */
  function IsType(t: Token, other: TokenType): (b: bool)
    ensures b ==> t == Token(t.start, t.end, other)
    ensures !b ==> forall start, end :: t != Token(start, end, other)
  {
    other == t.tokenType
  }

  datatype LexError =
    | UnexpectedEndOfFile
    | UnexpectedToken(c: char, start: Location, end: Location)

  datatype LexResult = Ok(tokens: seq<Token>) | Err(error: LexError)

  /** The characters the scanner accepts. */
  const Operators: string := "+-*/"

  predicate AllOperators(s: string)
  {
    forall k | 0 <= k < |s| :: s[k] in Operators
  }

  /** The arms of the scanner's dispatch: the kind of the one-character token
      for `c`, or `None` for a character that aborts the scan. */
  function KindOf(c: char): (r: Option<TokenType>)
    ensures r == Some(Plus) <==> c == '+'
    ensures r == Some(Minus) <==> c == '-'
    ensures r == Some(Star) <==> c == '*'
    ensures r == Some(Slash) <==> c == '/'
    ensures r == None <==> c !in Operators
  {
    match c
    case '+' => Some(Plus)
    case '-' => Some(Minus)
    case '*' => Some(Star)
    case '/' => Some(Slash)
    case _ => None
  }

  /** The token `push_tok!(kind, span)` appends when the counters hold
      `column` and `line`. As in the source, both locations are built with
      the arguments in the order (column, line). */
  function PushTok(kind: TokenType, span: nat, column: nat, line: nat): (t: Token)
    requires span >= 1
    ensures t.start.line == column && t.start.column == line
    ensures t.end.line == column + span - 1 && t.end.column == line
    ensures t.tokenType == kind
  {
    Token(NewLocation(column, line), NewLocation(column + span - 1, line), kind)
  }

  /** Lets `r` follow the tokens `ts` already produced: an error wins. */
  function Prepend(ts: seq<Token>, r: LexResult): LexResult
  {
    match r
    case Ok(us) => Ok(ts + us)
    case Err(e) => Err(e)
  }

  /** The functional specification of the scan of `s` when the counters
      start at `column` and `line`: one token per operator character, and
      the first other character aborts the whole scan. */
  function Scan(s: string, column: nat, line: nat): (r: LexResult)
    ensures r.Ok? ==> |r.tokens| == |s|
    ensures r.Err? ==> r.error.UnexpectedToken? && r.error.start == r.error.end
    ensures r.Err? ==> r.error.c !in Operators && r.error.start.column == line
    decreases |s|
  {
    if s == [] then Ok([])
    else
      match KindOf(s[0])
      case None => Err(UnexpectedToken(s[0], NewLocation(column, line), NewLocation(column, line)))
      case Some(kind) => Prepend([PushTok(kind, 1, column, line)], Scan(s[1..], column + 1, line))
  }

  /** What `lex` returns for `s`: both counters start at 1. */
  function LexSpec(s: string): LexResult
  {
    Scan(s, 1, 1)
  }

  /** The tokens `lex` holds after handling the first `i` characters of
      `s`: each of them an operator, token k for character k. */
  ghost predicate Handled(s: string, i: nat, result: seq<Token>)
  {
    i <= |s| && |result| == i &&
    forall k | 0 <= k < i :: s[k] in Operators && result[k] == PushTok(KindOf(s[k]).value, 1, k + 1, 1)
  }

  /** One successful step of the scan loop keeps both of its invariants. */
  lemma HandledStep(s: string, i: nat, result: seq<Token>, kind: TokenType)
    requires Handled(s, i, result) && i < |s| && KindOf(s[i]) == Some(kind)
    ensures Handled(s, i + 1, result + [PushTok(kind, 1, i + 1, 1)])
    ensures Prepend(result, Scan(s[i..], i + 1, 1))
         == Prepend(result + [PushTok(kind, 1, i + 1, 1)], Scan(s[i + 1..], i + 2, 1))
  {
    var t := PushTok(kind, 1, i + 1, 1);
    assert s[i..][1..] == s[i + 1..];
    var rest := Scan(s[i + 1..], i + 2, 1);
    if rest.Ok? {
      assert result + ([t] + rest.tokens) == (result + [t]) + rest.tokens;
    }
  }

  /** `lex`: one pass over the characters with a mutable column counter and
      token vector; an unexpected character returns its error at once. */
  method Lex(s: string) returns (r: LexResult)
    ensures r == LexSpec(s)
  {
    var result: seq<Token> := [];
    var i := 0;  // characters drawn from the iterator so far
    var maybeC: Option<char> := if i < |s| then Some(s[i]) else None;
    var column: nat := 1;
    var line: nat := 1;
    while maybeC.Some?
      invariant 0 <= i <= |s|
      invariant maybeC == if i < |s| then Some(s[i]) else None
      invariant column == i + 1 && line == 1
      invariant Handled(s, i, result)
      invariant LexSpec(s) == Prepend(result, Scan(s[i..], column, line))
      decreases |s| - i
    {
      var c := maybeC.value;
      var kind: TokenType;
      match c {
        case '+' => kind := Plus;
        case '-' => kind := Minus;
        case '*' => kind := Star;
        case '/' => kind := Slash;
        case _ =>
          return Err(UnexpectedToken(c, NewLocation(column, line), NewLocation(column, line)));
      }
      HandledStep(s, i, result, kind);
      // push_tok!(kind, 1)
      var span := 1;
      var start := NewLocation(column, line);
      column := column + span;
      var end := NewLocation(column - 1, line);
      result := result + [Token(start, end, kind)];
      // advance!()
      i := i + 1;
      maybeC := if i < |s| then Some(s[i]) else None;
    }
    assert result + [] == result;
    return Ok(result);
  }
}
