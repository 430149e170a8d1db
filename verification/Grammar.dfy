/**
 * What the recursive-descent parser computes (src/parser), as functions from a
 * cursor to a tree and the cursor behind it. Their termination proof is the
 * parser's progress: tokens left first, then the level of the grammar.
 */
module Grammar {
  import opened Wrappers
  import opened Source
  import opened Ast
  import opened Tokens
  import opened Literals

  /** Whether locations are kept, and how float literals are read. */
  datatype Mode = Mode(spans: bool, floats: string -> Option<Float>)

  function Start(c: Cursor): Position {
    c.Peek().span.start
  }

  /** One wrapper per node: parentheses widen the range of the node they enclose. */
  function Locate(m: Mode, e: Expr, start: Position, c: Cursor): Expr {
    if !m.spans then e
    else Located(Span(start, c.LastEnd()), if e.Located? then e.inner else e)
  }

  /** The operators of each binary level, tightest first: factor, term, comparison, equality, and, or. */
  function OperatorAt(level: nat, kind: TokenKind): Option<BinaryOp> {
    if level == 1 then
      if kind.Star? then Some(Multiply) else if kind.Slash? then Some(Divide) else if kind.Percent? then Some(Remainder) else None
    else if level == 2 then
      if kind.Plus? then Some(Add) else if kind.Minus? then Some(Subtract) else None
    else if level == 3 then
      if kind.LessSign? then Some(Less) else if kind.LessEqualSign? then Some(LessEqual)
      else if kind.GreaterSign? then Some(Greater) else if kind.GreaterEqualSign? then Some(GreaterEqual) else None
    else if level == 4 then
      if kind.EqualEqual? then Some(Equal) else if kind.BangEqual? then Some(NotEqual) else None
    else if level == 5 then
      if kind.AndAnd? then Some(And) else None
    else if level == 6 then
      if kind.OrOr? then Some(Or) else None
    else None
  }

  function NextOperator(c: Cursor, level: nat): Option<BinaryOp> {
    if c.rest.More? then OperatorAt(level, c.rest.head.kind) else None
  }

  predicate Assignable(target: Expr) {
    var bare := target.Unspanned();
    bare.Identifier? || bare.Property? || bare.Index?
  }

  // ----- expressions -----

  function ParseAssignment(m: Mode, c: Cursor, cons: bool): (r: Parse<Expr>)
    ensures Advances(c, r)
    decreases c.Length(), 12
  {
    match ParseSend(m, c, cons)
    case Failed(error) => Failed(error)
    case Parsed(target, next) =>
      if !next.Starts(EqualSign) then Parsed(target, next)
      else if !Assignable(target) then Failed(ErrorAt(next.rest.head, InvalidTarget))
      else
        match ParseAssignment(m, next.Next(), cons)
        case Failed(error) => Failed(error)
        case Parsed(value, after) => Parsed(Locate(m, Assignment(target, value), Start(c), after), after)
  }

  function ParseSend(m: Mode, c: Cursor, cons: bool): (r: Parse<Expr>)
    ensures Advances(c, r)
    decreases c.Length(), 11
  {
    match ParseBinary(m, c, cons, 6)
    case Failed(error) => Failed(error)
    case Parsed(connection, next) =>
      if !next.Starts(SendWord) then Parsed(connection, next)
      else
        match ParseBinary(m, next.Next(), cons, 6)
        case Failed(error) => Failed(error)
        case Parsed(data, middle) =>
          match ParseDestination(m, middle, cons)
          case Failed(error) => Failed(error)
          case Parsed(destination, after) =>
            if after.Starts(SendWord) then Failed(ErrorAt(after.Peek(), NestedSend))
            else
              var operands := [connection, data] + (if destination.Some? then [destination.value] else []);
              Parsed(Locate(m, Effect(Send, operands), Start(c), after), after)
  }

  function ParseDestination(m: Mode, c: Cursor, cons: bool): (r: Parse<Option<Expr>>)
    ensures Proceeds(c, r)
    decreases c.Length(), 11
  {
    if !c.Starts(ToWord) then Parsed(None, c)
    else
      match ParseBinary(m, c.Next(), cons, 6)
      case Failed(error) => Failed(error)
      case Parsed(destination, after) => Parsed(Some(destination), after)
  }

  function ParseBinary(m: Mode, c: Cursor, cons: bool, level: nat): (r: Parse<Expr>)
    requires level <= 6
    ensures Advances(c, r)
    decreases c.Length(), 4 + level
  {
    if level == 0 then ParseUnary(m, c, cons)
    else
      match ParseBinary(m, c, cons, level - 1)
      case Failed(error) => Failed(error)
      case Parsed(first, next) => ParseBinaryRest(m, next, cons, level, Start(c), first)
  }

  /** The loop of one level: operators of the level associate to the left. */
  function ParseBinaryRest(m: Mode, c: Cursor, cons: bool, level: nat, start: Position, left: Expr): (r: Parse<Expr>)
    requires 1 <= level <= 6
    ensures Proceeds(c, r)
    decreases c.Length(), 0
  {
    var op := NextOperator(c, level);
    if op.None? then Parsed(left, c)
    else
      match ParseBinary(m, c.Next(), cons, level - 1)
      case Failed(error) => Failed(error)
      case Parsed(right, after) =>
        ParseBinaryRest(m, after, cons, level, start, Locate(m, Binary(left, op.value, right), start, after))
  }

  function ParseUnary(m: Mode, c: Cursor, cons: bool): (r: Parse<Expr>)
    ensures Advances(c, r)
    decreases c.Length(), 3
  {
    if c.Starts(Bang) || c.Starts(Minus) then
      match ParseUnary(m, c.Next(), cons)
      case Failed(error) => Failed(error)
      case Parsed(operand, after) =>
        Parsed(Locate(m, Unary(if c.Starts(Bang) then Not else Negate, operand), Start(c), after), after)
    else ParsePostfix(m, c, cons)
  }

  function ParsePostfix(m: Mode, c: Cursor, cons: bool): (r: Parse<Expr>)
    ensures Advances(c, r)
    decreases c.Length(), 2
  {
    match ParsePrimary(m, c, cons)
    case Failed(error) => Failed(error)
    case Parsed(e, next) => ParsePostfixRest(m, next, Start(c), e)
  }

  function ParsePostfixRest(m: Mode, c: Cursor, start: Position, e: Expr): (r: Parse<Expr>)
    ensures Proceeds(c, r)
    decreases c.Length(), 2
  {
    match ParsePostfixOne(m, c, e)
    case Failed(error) => Failed(error)
    case Parsed(None, _) => Parsed(e, c)
    case Parsed(Some(longer), after) => ParsePostfixRest(m, after, start, Locate(m, longer, start, after))
  }

  /** One call, index, receive or property access, if there is one. */
  function ParsePostfixOne(m: Mode, c: Cursor, e: Expr): (r: Parse<Option<Expr>>)
    ensures r.Parsed? && r.value.Some? ==> r.cursor.Length() < c.Length()
    ensures r.Parsed? && r.value.None? ==> r.cursor == c
    decreases c.Length(), 1
  {
    if c.Starts(LeftParen) then
      match ParseList(m, c.Next(), RightParen)
      case Failed(error) => Failed(error)
      case Parsed(arguments, after) => Parsed(Some(Call(e, arguments)), after)
    else if c.Starts(LeftBracket) then
      match ParseAssignment(m, c.Next(), true)
      case Failed(error) => Failed(error)
      case Parsed(index, next) =>
        (match Consume(next, RightBracket)
         case Failed(error) => Failed(error)
         case Parsed(_, after) => Parsed(Some(Index(e, index)), after))
    else if c.Starts(ReceiveWord) then Parsed(Some(Effect(Receive, [e])), c.Next())
    else if c.Starts(Dot) then
      match Consume(c.Next(), IdentifierToken)
      case Failed(error) => Failed(error)
      case Parsed(name, after) => Parsed(Some(Property(e, name.lexeme)), after)
    else Parsed(None, c)
  }

  function ParseList(m: Mode, c: Cursor, closing: TokenKind): (r: Parse<seq<Expr>>)
    ensures Advances(c, r)
    decreases c.Length(), 14
  {
    if c.Starts(closing) then Parsed([], c.Next()) else ParseItems(m, c, closing, [])
  }

  /** One more element; a comma before the closing delimiter is allowed. */
  function ParseItems(m: Mode, c: Cursor, closing: TokenKind, done: seq<Expr>): (r: Parse<seq<Expr>>)
    ensures Advances(c, r)
    decreases c.Length(), 13
  {
    match ParseAssignment(m, c, true)
    case Failed(error) => Failed(error)
    case Parsed(e, next) =>
      if next.Starts(Comma) && !next.Next().Starts(closing) then ParseItems(m, next.Next(), closing, done + [e])
      else
        match Consume(if next.Starts(Comma) then next.Next() else next, closing)
        case Failed(error) => Failed(error)
        case Parsed(_, after) => Parsed(done + [e], after)
  }

  function ParseFields(m: Mode, c: Cursor): (r: Parse<seq<Field>>)
    ensures Advances(c, r)
    decreases c.Length(), 15
  {
    if c.Starts(RightBrace) then Parsed([], c.Next()) else ParseFieldItems(m, c, [])
  }

  function KeyOfToken(token: Token): Result<string, ParseError> {
    if token.kind.IdentifierToken? then Ok(token.lexeme)
    else if token.kind.StringToken? then StringOf(token)
    else Err(ErrorAt(token, ExpectedKey))
  }

  function ParseField(m: Mode, c: Cursor): (r: Parse<Field>)
    ensures Advances(c, r)
    decreases c.Length(), 13
  {
    var key := KeyOfToken(c.Peek());
    if key.Err? then Failed(key.error)
    else
      match Consume(c.Next(), Colon)
      case Failed(error) => Failed(error)
      case Parsed(_, here) =>
        match ParseAssignment(m, here, true)
        case Failed(error) => Failed(error)
        case Parsed(value, next) => Parsed(Field(key.value, value), next)
  }

  function ParseFieldItems(m: Mode, c: Cursor, done: seq<Field>): (r: Parse<seq<Field>>)
    ensures Advances(c, r)
    decreases c.Length(), 14
  {
    match ParseField(m, c)
    case Failed(error) => Failed(error)
    case Parsed(field, next) =>
      if next.Starts(Comma) && !next.Next().Starts(RightBrace) then ParseFieldItems(m, next.Next(), done + [field])
      else
        match Consume(if next.Starts(Comma) then next.Next() else next, RightBrace)
        case Failed(error) => Failed(error)
        case Parsed(_, after) => Parsed(done + [field], after)
  }

  function ParsePrimary(m: Mode, c: Cursor, cons: bool): (r: Parse<Expr>)
    ensures Advances(c, r)
    decreases c.Length(), 1
  {
    match ParsePrimaryInner(m, c, cons)
    case Failed(error) => Failed(error)
    case Parsed(e, after) => Parsed(Locate(m, e, Start(c), after), after)
  }

  function FloatOf(m: Mode, token: Token): Result<Float, ParseError> {
    var value := m.floats(token.lexeme);
    if value.None? then Err(ErrorAt(token, FloatSyntax))
    else if !value.value.Finite? then Err(ErrorAt(token, FloatRange))
    else Ok(value.value)
  }

  predicate IsLiteral(kind: TokenKind) {
    kind.IntegerToken? || kind.FloatToken? || kind.StringToken? || kind.TrueWord? || kind.FalseWord? || kind.NullWord?
    || kind.DurationToken?
  }

  /** The literals: one token each. */
  function LiteralOf(m: Mode, token: Token): Result<Expr, ParseError>
    requires IsLiteral(token.kind)
  {
    match token.kind
    case IntegerToken => (match IntegerOf(token) case Ok(i) => Ok(IntegerLit(i)) case Err(error) => Err(error))
    case FloatToken => (match FloatOf(m, token) case Ok(x) => Ok(FloatLit(x)) case Err(error) => Err(error))
    case StringToken => (match StringOf(token) case Ok(text) => Ok(StringLit(text)) case Err(error) => Err(error))
    case DurationToken => (match DurationOf(token) case Ok(d) => Ok(DurationLit(d)) case Err(error) => Err(error))
    case TrueWord => Ok(BooleanLit(true))
    case FalseWord => Ok(BooleanLit(false))
    case _ => Ok(NullLit)
  }

  function ParsePrimaryInner(m: Mode, c: Cursor, cons: bool): (r: Parse<Expr>)
    ensures Advances(c, r)
    decreases c.Length(), 0
  {
    if c.rest.End? then Failed(ErrorAt(c.Peek(), ExpectedExpression))
    else
      var token, next := c.rest.head, c.Next();
      if IsLiteral(token.kind) then
        var literal := LiteralOf(m, token);
        if literal.Ok? then Parsed(literal.value, next) else Failed(literal.error)
      else if token.kind.TransportWord? then ParseConnection(m, next, token.kind.transport)
      else if token.kind.VerbWord? then ParseRequest(m, next, token.kind.verb)
      else if token.kind.IdentifierToken? then
        if cons && next.Starts(LeftBrace) then
          match ParseFields(m, next.Next())
          case Failed(error) => Failed(error)
          case Parsed(fields, after) => Parsed(Construct(token.lexeme, fields), after)
        else Parsed(Identifier(token.lexeme), next)
      else if token.kind.LeftParen? then
        match ParseAssignment(m, next, true)
        case Failed(error) => Failed(error)
        case Parsed(e, inside) =>
          (match Consume(inside, RightParen)
           case Failed(error) => Failed(error)
           case Parsed(_, after) => Parsed(e, after))
      else if token.kind.LeftBracket? then
        match ParseList(m, next, RightBracket)
        case Failed(error) => Failed(error)
        case Parsed(elements, after) => Parsed(ArrayLit(elements), after)
      else if token.kind.LeftBrace? then ParseObject(m, next)
      else Failed(ErrorAt(token, ExpectedExpression))
  }

  /** An address is read without constructors, so that a following brace is left alone. */
  function ParseConnection(m: Mode, c: Cursor, transport: Transport): (r: Parse<Expr>)
    ensures Advances(c, r)
    decreases c.Length(), 13
  {
    match ParseBinary(m, c, false, 6)
    case Failed(error) => Failed(error)
    case Parsed(address, next) =>
      if !next.Starts(UsingWord) then Parsed(Effect(Connect(transport, None), [address]), next)
      else
        match Consume(next.Next(), IdentifierToken)
        case Failed(error) => Failed(error)
        case Parsed(protocol, after) => Parsed(Effect(Connect(transport, Some(protocol.lexeme)), [address]), after)
  }

  /** The URL is a full expression; an object right behind it configures the request. */
  function ParseRequest(m: Mode, c: Cursor, verb: HttpMethod): (r: Parse<Expr>)
    ensures Advances(c, r)
    decreases c.Length(), 13
  {
    match ParseAssignment(m, c, false)
    case Failed(error) => Failed(error)
    case Parsed(url, next) =>
      if !next.Starts(LeftBrace) then Parsed(Effect(Request(verb), [url]), next)
      else
        match ParseObject(m, next.Next())
        case Failed(error) => Failed(error)
        case Parsed(config, after) => Parsed(Effect(Request(verb), [url, config]), after)
  }

  /** Called behind the opening brace, whose start the object takes. */
  function ParseObject(m: Mode, c: Cursor): (r: Parse<Expr>)
    ensures Advances(c, r)
    decreases c.Length(), 16
  {
    var start := if c.previous.Some? then c.previous.value.span.start else Start(c);
    match ParseFields(m, c)
    case Failed(error) => Failed(error)
    case Parsed(fields, after) => Parsed(Locate(m, ObjectLit(fields), start, after), after)
  }
}
