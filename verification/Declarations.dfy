/** The statement half of the grammar: declarations, statements and patterns (src/parser/statement.rs). */
module Declarations {
  import opened Wrappers
  import opened Source
  import opened Ast
  import opened Tokens
  import opened Literals
  import opened Grammar

  function LocateStmt(m: Mode, s: Stmt, start: Position, c: Cursor): Stmt {
    if m.spans then LocatedStmt(Span(start, c.LastEnd()), s) else s
  }

  // ----- types and parameters -----

  function ParseTypeName(m: Mode, c: Cursor): (r: Parse<TypeAnnotation>)
    ensures Advances(c, r)
  {
    match Consume(c, IdentifierToken)
    case Failed(error) => Failed(error)
    case Parsed(token, after) => Parsed(TypeAnnotation(token.lexeme, if m.spans then Some(token.span) else None), after)
  }

  function ParseAnnotation(m: Mode, c: Cursor): (r: Parse<Option<TypeAnnotation>>)
    ensures Proceeds(c, r)
  {
    if !c.Starts(Colon) then Parsed(None, c)
    else
      match ParseTypeName(m, c.Next())
      case Failed(error) => Failed(error)
      case Parsed(annotation, after) => Parsed(Some(annotation), after)
  }

  function ParseTypeField(m: Mode, c: Cursor): (r: Parse<TypeField>)
    ensures Advances(c, r)
  {
    match Consume(c, IdentifierToken)
    case Failed(error) => Failed(error)
    case Parsed(name, next) =>
      match Consume(next, Colon)
      case Failed(error) => Failed(error)
      case Parsed(_, here) =>
        match ParseTypeName(m, here)
        case Failed(error) => Failed(error)
        case Parsed(annotation, after) => Parsed(TypeField(name.lexeme, annotation), after)
  }

  function ParseTypeFields(m: Mode, c: Cursor, done: seq<TypeField>): (r: Parse<seq<TypeField>>)
    ensures Advances(c, r)
    decreases c.Length()
  {
    match ParseTypeField(m, c)
    case Failed(error) => Failed(error)
    case Parsed(field, next) =>
      if next.Starts(Comma) && !next.Next().Starts(RightBrace) then ParseTypeFields(m, next.Next(), done + [field])
      else
        match Consume(if next.Starts(Comma) then next.Next() else next, RightBrace)
        case Failed(error) => Failed(error)
        case Parsed(_, after) => Parsed(done + [field], after)
  }

  /** Behind the keyword. */
  function ParseTypeDecl(m: Mode, c: Cursor): (r: Parse<Stmt>)
    ensures Advances(c, r)
  {
    match Consume(c, IdentifierToken)
    case Failed(error) => Failed(error)
    case Parsed(name, next) =>
      match Consume(next, LeftBrace)
      case Failed(error) => Failed(error)
      case Parsed(_, inside) =>
        if inside.Starts(RightBrace) then Parsed(TypeDecl(name.lexeme, []), inside.Next())
        else
          match ParseTypeFields(m, inside, [])
          case Failed(error) => Failed(error)
          case Parsed(fields, after) => Parsed(TypeDecl(name.lexeme, fields), after)
  }

  function ParseParameter(m: Mode, c: Cursor): (r: Parse<Parameter>)
    ensures Advances(c, r)
  {
    match Consume(c, IdentifierToken)
    case Failed(error) => Failed(error)
    case Parsed(name, next) =>
      match ParseAnnotation(m, next)
      case Failed(error) => Failed(error)
      case Parsed(annotation, after) => Parsed(Parameter(name.lexeme, annotation), after)
  }

  function ParseParameters(m: Mode, c: Cursor, done: seq<Parameter>): (r: Parse<seq<Parameter>>)
    ensures Advances(c, r)
    decreases c.Length()
  {
    match ParseParameter(m, c)
    case Failed(error) => Failed(error)
    case Parsed(parameter, next) =>
      if next.Starts(Comma) && !next.Next().Starts(RightParen) then ParseParameters(m, next.Next(), done + [parameter])
      else
        match Consume(if next.Starts(Comma) then next.Next() else next, RightParen)
        case Failed(error) => Failed(error)
        case Parsed(_, after) => Parsed(done + [parameter], after)
  }

  function ParseParameterList(m: Mode, c: Cursor): (r: Parse<seq<Parameter>>)
    ensures Advances(c, r)
  {
    match Consume(c, LeftParen)
    case Failed(error) => Failed(error)
    case Parsed(_, inside) =>
      if inside.Starts(RightParen) then Parsed([], inside.Next()) else ParseParameters(m, inside, [])
  }

  // ----- statements without bodies -----

  /** Behind `let`: a name with an optional type, as for a parameter, then the initializer. */
  function ParseLet(m: Mode, c: Cursor, cons: bool): (r: Parse<Stmt>)
    ensures Advances(c, r)
  {
    match ParseParameter(m, c)
    case Failed(error) => Failed(error)
    case Parsed(variable, here) =>
      match ParseInitializer(m, here, cons)
      case Failed(error) => Failed(error)
      case Parsed(value, after) => Parsed(Let(variable.name, variable.annotation, value), after)
  }

  function ParseInitializer(m: Mode, c: Cursor, cons: bool): (r: Parse<Expr>)
    ensures Advances(c, r)
  {
    match Consume(c, EqualSign)
    case Failed(error) => Failed(error)
    case Parsed(_, here) =>
      match ParseAssignment(m, here, cons)
      case Failed(error) => Failed(error)
      case Parsed(value, end) =>
        match Consume(end, Semicolon)
        case Failed(error) => Failed(error)
        case Parsed(_, after) => Parsed(value, after)
  }

  /** Behind `return`. */
  function ParseReturn(m: Mode, c: Cursor, cons: bool): (r: Parse<Stmt>)
    ensures Advances(c, r)
  {
    if c.Starts(Semicolon) then Parsed(Return(None), c.Next())
    else
      match ParseAssignment(m, c, cons)
      case Failed(error) => Failed(error)
      case Parsed(value, end) =>
        match Consume(end, Semicolon)
        case Failed(error) => Failed(error)
        case Parsed(_, after) => Parsed(Return(Some(value)), after)
  }

  function ParseExpressionStmt(m: Mode, c: Cursor, cons: bool): (r: Parse<Stmt>)
    ensures Advances(c, r)
  {
    match ParseAssignment(m, c, cons)
    case Failed(error) => Failed(error)
    case Parsed(e, end) =>
      match Consume(end, Semicolon)
      case Failed(error) => Failed(error)
      case Parsed(_, after) => Parsed(ExprStmt(e), after)
  }

  function ParseLoopControl(c: Cursor): (r: Parse<Stmt>)
    requires c.Starts(BreakWord) || c.Starts(ContinueWord)
    ensures Advances(c, r)
  {
    match Consume(c.Next(), Semicolon)
    case Failed(error) => Failed(error)
    case Parsed(_, after) => Parsed(if c.Starts(BreakWord) then Break else Continue, after)
  }

  function PatternOf(token: Token): Result<Pattern, ParseError> {
    match token.kind
    case IntegerToken => (match IntegerOf(token) case Ok(i) => Ok(IntegerPattern(i)) case Err(error) => Err(error))
    case StringToken => (match StringOf(token) case Ok(text) => Ok(StringPattern(text)) case Err(error) => Err(error))
    case TrueWord => Ok(BooleanPattern(true))
    case FalseWord => Ok(BooleanPattern(false))
    case NullWord => Ok(NullPattern)
    case IdentifierToken => if token.lexeme == "_" then Ok(Wildcard) else Err(ErrorAt(token, ExpectedPattern))
    case _ => Err(ErrorAt(token, ExpectedPattern))
  }

  function LocatePattern(m: Mode, token: Token, pattern: Pattern): Pattern {
    if m.spans then LocatedPattern(token.span, pattern) else pattern
  }

  // ----- statements with bodies -----

  /** Declarations up to the end of input or, in a block, its brace. */
  function ParseMany(m: Mode, c: Cursor, cons: bool, block: bool, done: seq<Stmt>): (r: Parse<seq<Stmt>>)
    ensures Proceeds(c, r)
    decreases c.Length(), 22
  {
    if c.rest.End? || (block && c.Starts(RightBrace)) then Parsed(done, c)
    else
      match ParseDeclaration(m, c, cons)
      case Failed(error) => Failed(error)
      case Parsed(s, next) => ParseMany(m, next, cons, block, done + [s])
  }

  function ParseDeclaration(m: Mode, c: Cursor, cons: bool): (r: Parse<Stmt>)
    ensures Advances(c, r)
    decreases c.Length(), 21
  {
    match ParseDeclarationInner(m, c, cons)
    case Failed(error) => Failed(error)
    case Parsed(s, after) => Parsed(LocateStmt(m, s, Start(c), after), after)
  }

  function ParseDeclarationInner(m: Mode, c: Cursor, cons: bool): (r: Parse<Stmt>)
    ensures Advances(c, r)
    decreases c.Length(), 20
  {
    if c.Starts(TypeWord) then ParseTypeDecl(m, c.Next())
    else if c.Starts(FnWord) then ParseFunction(m, c.Next(), cons)
    else if c.Starts(LetWord) then ParseLet(m, c.Next(), cons)
    else ParseStatement(m, c, cons)
  }

  /** Behind `fn`. */
  function ParseFunction(m: Mode, c: Cursor, cons: bool): (r: Parse<Stmt>)
    ensures Advances(c, r)
    decreases c.Length(), 20
  {
    match Consume(c, IdentifierToken)
    case Failed(error) => Failed(error)
    case Parsed(name, next) =>
      match ParseSignature(m, next)
      case Failed(error) => Failed(error)
      case Parsed(signature, before) =>
        match ParseBlock(m, before, cons)
        case Failed(error) => Failed(error)
        case Parsed(body, after) => Parsed(Function(name.lexeme, signature.parameters, signature.result, body), after)
  }

  datatype Signature = Signature(parameters: seq<Parameter>, result: Option<TypeAnnotation>)

  function ParseSignature(m: Mode, c: Cursor): (r: Parse<Signature>)
    ensures Advances(c, r)
  {
    match ParseParameterList(m, c)
    case Failed(error) => Failed(error)
    case Parsed(parameters, here) =>
      match ParseResult(m, here)
      case Failed(error) => Failed(error)
      case Parsed(result, after) => Parsed(Signature(parameters, result), after)
  }

  function ParseResult(m: Mode, c: Cursor): (r: Parse<Option<TypeAnnotation>>)
    ensures Proceeds(c, r)
  {
    if !c.Starts(Arrow) then Parsed(None, c)
    else
      match ParseTypeName(m, c.Next())
      case Failed(error) => Failed(error)
      case Parsed(annotation, after) => Parsed(Some(annotation), after)
  }

  function ParseBlock(m: Mode, c: Cursor, cons: bool): (r: Parse<Stmt>)
    ensures Advances(c, r)
    decreases c.Length(), 18
  {
    match Consume(c, LeftBrace)
    case Failed(error) => Failed(error)
    case Parsed(_, inside) =>
      match ParseMany(m, inside, cons, true, [])
      case Failed(error) => Failed(error)
      case Parsed(statements, end) =>
        match Consume(end, RightBrace)
        case Failed(error) => Failed(error)
        case Parsed(_, after) => Parsed(Block(statements), after)
  }

  function ParseStatement(m: Mode, c: Cursor, cons: bool): (r: Parse<Stmt>)
    ensures Advances(c, r)
    decreases c.Length(), 19
  {
    if c.Starts(BreakWord) || c.Starts(ContinueWord) then ParseLoopControl(c)
    else if c.Starts(LeftBrace) then ParseBlock(m, c, cons)
    else if c.Starts(IfWord) then ParseIf(m, c.Next(), cons)
    else if c.Starts(WhileWord) then ParseWhile(m, c.Next(), cons)
    else if c.Starts(MatchWord) then ParseMatch(m, c.Next(), cons)
    else if c.Starts(ForWord) then ParseFor(m, c.Next(), cons, false)
    else if c.Starts(ParallelWord) then ParseFor(m, c.Next(), cons, true)
    else if c.Starts(ReturnWord) then ParseReturn(m, c.Next(), cons)
    else ParseExpressionStmt(m, c, cons)
  }

  /** Behind `if`, including the one of an `else if`. */
  function ParseIf(m: Mode, c: Cursor, cons: bool): (r: Parse<Stmt>)
    ensures Advances(c, r)
    decreases c.Length(), 19
  {
    match ParseAssignment(m, c, false)
    case Failed(error) => Failed(error)
    case Parsed(condition, next) =>
      match ParseBlock(m, next, cons)
      case Failed(error) => Failed(error)
      case Parsed(thenBranch, here) =>
        match ParseElse(m, here, cons)
        case Failed(error) => Failed(error)
        case Parsed(elseBranch, after) => Parsed(If(condition, thenBranch, elseBranch), after)
  }

  function ParseElse(m: Mode, c: Cursor, cons: bool): (r: Parse<Option<Stmt>>)
    ensures Proceeds(c, r)
    decreases c.Length(), 19
  {
    if !c.Starts(ElseWord) then Parsed(None, c)
    else
      match if c.Next().Starts(IfWord) then ParseIf(m, c.Next().Next(), cons) else ParseBlock(m, c.Next(), cons)
      case Failed(error) => Failed(error)
      case Parsed(branch, after) => Parsed(Some(branch), after)
  }

  function ParseWhile(m: Mode, c: Cursor, cons: bool): (r: Parse<Stmt>)
    ensures Advances(c, r)
    decreases c.Length(), 19
  {
    match ParseAssignment(m, c, false)
    case Failed(error) => Failed(error)
    case Parsed(condition, next) =>
      match ParseBlock(m, next, cons)
      case Failed(error) => Failed(error)
      case Parsed(body, after) => Parsed(While(condition, body), after)
  }

  /** Behind `for` or `parallel`. */
  function ParseFor(m: Mode, c: Cursor, cons: bool, parallel: bool): (r: Parse<Stmt>)
    ensures Advances(c, r)
    decreases c.Length(), 19
  {
    match Consume(c, IdentifierToken)
    case Failed(error) => Failed(error)
    case Parsed(variable, next) =>
      match Consume(next, InWord)
      case Failed(error) => Failed(error)
      case Parsed(_, here) =>
        match ParseAssignment(m, here, false)
        case Failed(error) => Failed(error)
        case Parsed(iterable, before) =>
          match ParseBlock(m, before, cons)
          case Failed(error) => Failed(error)
          case Parsed(body, after) =>
            Parsed(if parallel then Parallel(variable.lexeme, iterable, body) else For(variable.lexeme, iterable, body), after)
  }

  /** Behind `match`. */
  function ParseMatch(m: Mode, c: Cursor, cons: bool): (r: Parse<Stmt>)
    ensures Advances(c, r)
    decreases c.Length(), 19
  {
    match ParseAssignment(m, c, false)
    case Failed(error) => Failed(error)
    case Parsed(subject, next) =>
      match Consume(next, LeftBrace)
      case Failed(error) => Failed(error)
      case Parsed(_, inside) =>
        match ParseArms(m, inside, cons, [])
        case Failed(error) => Failed(error)
        case Parsed(arms, end) =>
          match Consume(end, RightBrace)
          case Failed(error) => Failed(error)
          case Parsed(_, after) => Parsed(Match(subject, arms), after)
  }

  function ParseArms(m: Mode, c: Cursor, cons: bool, done: seq<MatchArm>): (r: Parse<seq<MatchArm>>)
    ensures Proceeds(c, r)
    decreases c.Length(), 22
  {
    if c.rest.End? || c.Starts(RightBrace) then Parsed(done, c)
    else
      match ParseArm(m, c, cons)
      case Failed(error) => Failed(error)
      case Parsed(arm, next) => ParseArms(m, next, cons, done + [arm])
  }

  function ParseArm(m: Mode, c: Cursor, cons: bool): (r: Parse<MatchArm>)
    requires c.rest.More?
    ensures Advances(c, r)
    decreases c.Length(), 21
  {
    match PatternOf(c.rest.head)
    case Err(error) => Failed(error)
    case Ok(pattern) =>
      match Consume(c.Next(), FatArrow)
      case Failed(error) => Failed(error)
      case Parsed(_, here) =>
        match ParseBlock(m, here, cons)
        case Failed(error) => Failed(error)
        case Parsed(body, after) => Parsed(MatchArm(LocatePattern(m, c.rest.head, pattern), body), after)
  }
}
