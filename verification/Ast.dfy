/**
 * The syntax tree (src/ast). The network expressions keep their operator and
 * operand order but share one node: each evaluates its operands from left to
 * right and then asks the host.
 */
module Ast {
  import opened Wrappers
  import opened Source

  const MIN_INTEGER: int := -0x8000_0000_0000_0000
  const MAX_INTEGER: int := 0x7fff_ffff_ffff_ffff
  const MAX_DURATION: int := 0xffff_ffff_ffff_ffff

  /** The 64-bit signed integers of the language. */
  type Integer = i: int | MIN_INTEGER <= i <= MAX_INTEGER

  /** Durations are unsigned 64-bit milliseconds. */
  type Duration = d: int | 0 <= d <= MAX_DURATION

  type Byte = b: int | 0 <= b < 256

  /** A binary64 value up to the sign of zero. */
  datatype Float = Finite(value: real) | Infinite(negative: bool) | NaN

  datatype UnaryOp = Not | Negate

  datatype BinaryOp =
    | Add | Subtract | Multiply | Divide | Remainder
    | Less | LessEqual | Greater | GreaterEqual | Equal | NotEqual
    | And | Or

  datatype HttpMethod = GetVerb | PostVerb | PutVerb | PatchVerb | DeleteVerb | HeadVerb

  datatype Transport = Tcp | Udp

  datatype EffectOp =
    | Connect(transport: Transport, protocol: Option<string>)
    | Send
    | Receive
    | Request(verb: HttpMethod)

  datatype Field = Field(key: string, value: Expr)

  datatype Expr =
    | Construct(name: string, fields: seq<Field>)
    | Located(span: Span, inner: Expr)
    | Effect(op: EffectOp, operands: seq<Expr>)
    | IntegerLit(integer: Integer)
    | FloatLit(float: Float)
    | StringLit(text: string)
    | BooleanLit(boolean: bool)
    | NullLit
    | DurationLit(duration: Duration)
    | Identifier(name: string)
    | ArrayLit(elements: seq<Expr>)
    | ObjectLit(fields: seq<Field>)
    | Unary(unary: UnaryOp, operand: Expr)
    | Binary(left: Expr, binary: BinaryOp, right: Expr)
    | Assignment(target: Expr, value: Expr)
    | Call(callee: Expr, arguments: seq<Expr>)
    | Property(owner: Expr, name: string)
    | Index(owner: Expr, index: Expr)
  {
    /** The node below every location wrapper. */
    function Unspanned(): (e: Expr)
      ensures !e.Located?
      ensures e == this || e < this
    {
      if Located? then inner.Unspanned() else this
    }

    function Where(): Option<Span> {
      if Located? then Some(span) else None
    }
  }

  function Keys(fields: seq<Field>): (keys: seq<string>)
    ensures |keys| == |fields|
    ensures forall i | 0 <= i < |fields| :: keys[i] == fields[i].key
  {
    seq(|fields|, i requires 0 <= i < |fields| => fields[i].key)
  }

  function FieldValues(fields: seq<Field>): (values: seq<Expr>)
    ensures |values| == |fields|
    ensures forall i | 0 <= i < |fields| :: values[i] == fields[i].value
  {
    seq(|fields|, i requires 0 <= i < |fields| => fields[i].value)
  }

  predicate IsLogical(op: BinaryOp) { op.And? || op.Or? }

  /**
   * Most nodes evaluate all their operands from left to right and then combine
   * the values. Only names, assignments, locations and the short-circuit
   * operators do something else.
   */
  predicate IsStrict(e: Expr) {
    !e.Located? && !e.Identifier? && !e.Assignment? && !(e.Binary? && IsLogical(e.binary))
  }

  function Operands(e: Expr): (operands: seq<Expr>)
    ensures forall i | 0 <= i < |operands| :: operands[i] < e
  {
    match e
    case Construct(_, fields) => FieldValues(fields)
    case ObjectLit(fields) => FieldValues(fields)
    case Effect(_, operands) => operands
    case ArrayLit(elements) => elements
    case Unary(_, operand) => [operand]
    case Binary(left, _, right) => [left, right]
    case Call(callee, arguments) => [callee] + arguments
    case Property(owner, _) => [owner]
    case Index(owner, index) => [owner, index]
    case _ => []
  }

  datatype TypeAnnotation = TypeAnnotation(name: string, span: Option<Span>)

  datatype TypeField = TypeField(name: string, annotation: TypeAnnotation)

  datatype Parameter = Parameter(name: string, annotation: Option<TypeAnnotation>)

  datatype Pattern =
    | LocatedPattern(span: Span, inner: Pattern)
    | IntegerPattern(integer: Integer)
    | StringPattern(text: string)
    | BooleanPattern(boolean: bool)
    | NullPattern
    | Wildcard
  {
    function Unspanned(): (p: Pattern)
      ensures !p.LocatedPattern?
    {
      if LocatedPattern? then inner.Unspanned() else this
    }
  }

  datatype MatchArm = MatchArm(pattern: Pattern, body: Stmt)

  datatype Stmt =
    | TypeDecl(name: string, fields: seq<TypeField>)
    | Break
    | Continue
    | LocatedStmt(span: Span, inner: Stmt)
    | Parallel(variable: string, iterable: Expr, body: Stmt)
    | Match(subject: Expr, arms: seq<MatchArm>)
    | Let(name: string, annotation: Option<TypeAnnotation>, value: Expr)
    | ExprStmt(expression: Expr)
    | Block(statements: seq<Stmt>)
    | If(condition: Expr, thenBranch: Stmt, elseBranch: Option<Stmt>)
    | While(condition: Expr, body: Stmt)
    | For(variable: string, iterable: Expr, body: Stmt)
    | Function(name: string, parameters: seq<Parameter>, result: Option<TypeAnnotation>, body: Stmt)
    | Return(returned: Option<Expr>)
  {
    function Unspanned(): (s: Stmt)
      ensures !s.LocatedStmt?
      ensures s == this || s < this
    {
      if LocatedStmt? then inner.Unspanned() else this
    }

    function Where(): Option<Span> {
      if LocatedStmt? then Some(span) else None
    }
  }

  datatype PrimitiveType = Int | FloatType | Bool | StringType | DurationType | Bytes

  /** The statements of a body, which share the scope the body is given. */
  function Contents(body: Stmt): (stmts: seq<Stmt>)
    ensures body.Block? ==> forall i | 0 <= i < |stmts| :: stmts[i] < body
  {
    if body.Block? then body.statements else [body]
  }
}
