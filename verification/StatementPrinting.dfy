/**
 * Printing statements as tokens (docs/src/content/docs/language/syntax.md):
 * simple statements end with a semicolon, block-based ones with their block, and
 * an expression that would begin with a brace is parenthesised as a statement.
 */
module StatementPrinting {
  import opened Wrappers
  import opened Ast
  import opened Tokens
  import opened Literals
  import opened Grammar
  import opened Printing

  // ----- statements the parser produces -----

  predicate PlainType(a: TypeAnnotation) {
    a.span.None?
  }

  predicate PlainOptionalType(a: Option<TypeAnnotation>) {
    a.Some? ==> PlainType(a.value)
  }

  predicate PlainParameters(parameters: seq<Parameter>) {
    forall i | 0 <= i < |parameters| :: PlainOptionalType(parameters[i].annotation)
  }

  predicate PlainFields(fields: seq<TypeField>) {
    forall i | 0 <= i < |fields| :: PlainType(fields[i].annotation)
  }

  /** Bodies are blocks, an `else` holds a block or another conditional, and nothing is located. */
  predicate Writable(m: Mode, show: FloatPrinter, s: Stmt)
    decreases s
  {
    match s
    case LocatedStmt(_, _) => false
    case TypeDecl(_, fields) => PlainFields(fields)
    case Break => true
    case Continue => true
    case Let(_, annotation, value) => PlainOptionalType(annotation) && Producible(m, show, value)
    case ExprStmt(e) => Producible(m, show, e)
    case Return(returned) => returned.Some? ==> Producible(m, show, returned.value)
    case Block(statements) => forall i | 0 <= i < |statements| :: Writable(m, show, statements[i])
    case If(condition, thenBranch, elseBranch) =>
      && Producible(m, show, condition) && thenBranch.Block? && Writable(m, show, thenBranch)
      && (elseBranch.Some? ==> (elseBranch.value.Block? || elseBranch.value.If?) && Writable(m, show, elseBranch.value))
    case While(condition, body) => Producible(m, show, condition) && body.Block? && Writable(m, show, body)
    case For(_, iterable, body) => Producible(m, show, iterable) && body.Block? && Writable(m, show, body)
    case Parallel(_, iterable, body) => Producible(m, show, iterable) && body.Block? && Writable(m, show, body)
    case Function(_, parameters, result, body) =>
      PlainParameters(parameters) && PlainOptionalType(result) && body.Block? && Writable(m, show, body)
    case Match(subject, arms) =>
      && Producible(m, show, subject)
      && forall i | 0 <= i < |arms| :: !arms[i].pattern.LocatedPattern? && arms[i].body.Block? && Writable(m, show, arms[i].body)
  }

  predicate AllWritable(m: Mode, show: FloatPrinter, stmts: seq<Stmt>) {
    forall i | 0 <= i < |stmts| :: Writable(m, show, stmts[i])
  }

  // ----- printing -----

  function PutName(name: string, k: Stream): Stream {
    Put(IdentifierToken, name, k)
  }

  /** A type behind its colon or arrow, if there is one. */
  function PrintType(kind: TokenKind, annotation: Option<TypeAnnotation>, k: Stream): Stream {
    if annotation.Some? then Put(kind, "", PutName(annotation.value.name, k)) else k
  }

  function PrintParameter(p: Parameter, k: Stream): Stream {
    PutName(p.name, PrintType(Colon, p.annotation, k))
  }

  function PrintParameters(parameters: seq<Parameter>, i: nat, k: Stream): Stream
    decreases |parameters| - i
  {
    if i >= |parameters| then Put(RightParen, ")", k)
    else
      PrintParameter(parameters[i],
                     if i + 1 < |parameters| then Put(Comma, ",", PrintParameters(parameters, i + 1, k)) else Put(RightParen, ")", k))
  }

  function PrintTypeField(field: TypeField, k: Stream): Stream {
    PutName(field.name, PrintType(Colon, Some(field.annotation), k))
  }

  function PrintTypeFields(fields: seq<TypeField>, i: nat, k: Stream): Stream
    decreases |fields| - i
  {
    if i >= |fields| then Put(RightBrace, "}", k)
    else
      PrintTypeField(fields[i],
                     if i + 1 < |fields| then Put(Comma, ",", PrintTypeFields(fields, i + 1, k)) else Put(RightBrace, "}", k))
  }

  function PrintPattern(p: Pattern, k: Stream): Stream {
    match p
    case LocatedPattern(_, _) => k
    case IntegerPattern(i) => Put(IntegerToken, SignedDecimal(i), k)
    case StringPattern(text) => Put(StringToken, Quoted(text), k)
    case BooleanPattern(b) => Put(if b then TrueWord else FalseWord, "", k)
    case NullPattern => Put(NullWord, "null", k)
    case Wildcard => PutName("_", k)
  }

  /** An expression where a brace would begin a block. */
  function PrintAlone(show: FloatPrinter, e: Expr, k: Stream): Stream {
    var bare := Print(show, e, 8, true, k);
    if bare.Starts(LeftBrace) then Put(LeftParen, "(", PrintBare(show, e, true, Put(RightParen, ")", k))) else bare
  }

  /** An expression in front of a block. */
  function PrintHead(show: FloatPrinter, e: Expr, k: Stream): Stream {
    Print(show, e, 8, false, k)
  }

  function PrintStmt(show: FloatPrinter, s: Stmt, k: Stream): Stream
    decreases s, 1
  {
    match s
    case LocatedStmt(_, inner) => PrintStmt(show, inner, k)
    case TypeDecl(name, fields) => Put(TypeWord, "type", PutName(name, Put(LeftBrace, "{", PrintTypeFields(fields, 0, k))))
    case Break => Put(BreakWord, "break", Put(Semicolon, ";", k))
    case Continue => Put(ContinueWord, "continue", Put(Semicolon, ";", k))
    case Let(name, annotation, value) =>
      Put(LetWord, "let", PrintParameter(Parameter(name, annotation),
          Put(EqualSign, "=", Print(show, value, 8, true, Put(Semicolon, ";", k)))))
    case ExprStmt(e) => PrintAlone(show, e, Put(Semicolon, ";", k))
    case Return(returned) =>
      Put(ReturnWord, "return",
          if returned.Some? then Print(show, returned.value, 8, true, Put(Semicolon, ";", k)) else Put(Semicolon, ";", k))
    case Block(statements) => Put(LeftBrace, "{", PrintStmts(show, s, statements, 0, Put(RightBrace, "}", k)))
    case If(condition, thenBranch, elseBranch) =>
      Put(IfWord, "if", PrintHead(show, condition, PrintStmt(show, thenBranch,
          if elseBranch.Some? then Put(ElseWord, "else", PrintStmt(show, elseBranch.value, k)) else k)))
    case While(condition, body) => Put(WhileWord, "while", PrintHead(show, condition, PrintStmt(show, body, k)))
    case For(variable, iterable, body) =>
      Put(ForWord, "for", PutName(variable, Put(InWord, "in", PrintHead(show, iterable, PrintStmt(show, body, k)))))
    case Parallel(variable, iterable, body) =>
      Put(ParallelWord, "parallel", PutName(variable, Put(InWord, "in", PrintHead(show, iterable, PrintStmt(show, body, k)))))
    case Function(name, parameters, result, body) =>
      Put(FnWord, "fn", PutName(name, Put(LeftParen, "(", PrintParameters(parameters, 0,
          PrintType(Arrow, result, PrintStmt(show, body, k))))))
    case Match(subject, arms) =>
      Put(MatchWord, "match", PrintHead(show, subject, Put(LeftBrace, "{", PrintArms(show, s, arms, 0, Put(RightBrace, "}", k)))))
  }

  function PrintStmts(show: FloatPrinter, parent: Stmt, stmts: seq<Stmt>, i: nat, k: Stream): Stream
    requires forall j | 0 <= j < |stmts| :: stmts[j] < parent
    decreases parent, 0, |stmts| - i
  {
    if i >= |stmts| then k else PrintStmt(show, stmts[i], PrintStmts(show, parent, stmts, i + 1, k))
  }

  function PrintArms(show: FloatPrinter, parent: Stmt, arms: seq<MatchArm>, i: nat, k: Stream): Stream
    requires forall j | 0 <= j < |arms| :: arms[j].body < parent
    decreases parent, 0, |arms| - i
  {
    if i >= |arms| then k
    else
      PrintPattern(arms[i].pattern, Put(FatArrow, "=>", PrintStmt(show, arms[i].body, PrintArms(show, parent, arms, i + 1, k))))
  }

  /** A whole program. */
  function PrintProgram(show: FloatPrinter, stmts: seq<Stmt>, k: Stream): Stream {
    PrintStmts(show, Block(stmts), stmts, 0, k)
  }
}
