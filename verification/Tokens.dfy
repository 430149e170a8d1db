/** Tokens, and the stream a parser still has to read (src/lexer/token.rs, src/parser/mod.rs). */
module Tokens {
  import opened Wrappers
  import opened Source
  import opened Ast

  datatype TokenKind =
    | Eof | IdentifierToken | IntegerToken | FloatToken | StringToken | DurationToken
    | LetWord | FnWord | ReturnWord | IfWord | ElseWord | WhileWord | ForWord | InWord | MatchWord | ParallelWord
    | TrueWord | FalseWord | NullWord | VerbWord(verb: HttpMethod) | TransportWord(transport: Transport)
    | SendWord | ReceiveWord | ToWord | UsingWord | BreakWord | ContinueWord | TypeWord
    | Plus | Minus | Star | Slash | Percent
    | EqualSign | EqualEqual | Bang | BangEqual | LessSign | LessEqualSign | GreaterSign | GreaterEqualSign
    | AndAnd | OrOr
    | LeftParen | RightParen | LeftBrace | RightBrace | LeftBracket | RightBracket
    | Comma | Colon | Semicolon | Dot | FatArrow | Arrow

  datatype Token = Token(kind: TokenKind, lexeme: string, span: Span)

  /** What is left to read. The end of input is never consumed. */
  datatype Stream = End(eof: Token) | More(head: Token, tail: Stream) {
    function Peek(): Token {
      if End? then eof else head
    }

    function Length(): nat {
      if End? then 0 else 1 + tail.Length()
    }

    predicate Starts(kind: TokenKind) {
      More? && head.kind == kind
    }
  }

  /** The parser's position: the token just consumed, if any, and the rest. */
  datatype Cursor = Cursor(previous: Option<Token>, rest: Stream) {
    function Next(): (next: Cursor)
      ensures next.Length() == if rest.End? then Length() else Length() - 1
    {
      if rest.End? then this else Cursor(Some(rest.head), rest.tail)
    }

    function Peek(): Token {
      rest.Peek()
    }

    function Length(): nat {
      rest.Length()
    }

    predicate Starts(kind: TokenKind): (starts: bool)
      ensures starts ==> rest.More? && Length() > 0
    {
      rest.Starts(kind)
    }

    /** Where the last consumed token ended; the start of input if there is none. */
    function LastEnd(): Position {
      if previous.Some? then previous.value.span.end else Position(1, 1)
    }
  }

  datatype Problem =
    | Expected(kind: TokenKind)
    | ExpectedExpression
    | ExpectedKey
    | ExpectedPattern
    | InvalidTarget
    | NestedSend
    | IntegerRange
    | FloatSyntax
    | FloatRange
    | DurationSyntax
    | DurationRange
    | StringSyntax
    | StringEscape

  datatype ParseError = ParseError(problem: Problem, span: Span)

  datatype Parse<+T> = Parsed(value: T, cursor: Cursor) | Failed(error: ParseError)

  function ErrorAt(token: Token, problem: Problem): ParseError {
    ParseError(problem, token.span)
  }

  function Consume(c: Cursor, kind: TokenKind): (r: Parse<Token>)
    ensures r.Parsed? ==> r.cursor == c.Next() && r.cursor.Length() < c.Length() && r.value == c.Peek()
  {
    if c.Starts(kind) then Parsed(c.rest.head, c.Next()) else Failed(ErrorAt(c.Peek(), Expected(kind)))
  }

  /** Progress: a successful parse leaves a strictly shorter rest. */
  predicate Advances<T>(c: Cursor, r: Parse<T>) {
    r.Parsed? ==> r.cursor.Length() < c.Length()
  }

  predicate Proceeds<T>(c: Cursor, r: Parse<T>) {
    r.Parsed? ==> r.cursor.Length() <= c.Length()
  }

  /** The suffix of a token list that ends with its only end-of-input token. */
  function StreamOf(tokens: seq<Token>, i: nat): (s: Stream)
    requires i < |tokens|
    ensures s.Length() == |tokens| - 1 - i && s.Peek() == tokens[i] && (s.End? <==> i == |tokens| - 1)
    decreases |tokens| - i
  {
    if i == |tokens| - 1 then End(tokens[i]) else More(tokens[i], StreamOf(tokens, i + 1))
  }
}
