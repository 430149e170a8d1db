/**
 * Printing expressions as tokens, with parentheses where the precedence table
 * asks for them (docs/src/content/docs/language/syntax.md). Requests,
 * connections and sends are always parenthesised as operands. Each function
 * prints in front of the tokens that follow.
 */
module Printing {
  import opened Wrappers
  import opened Source
  import opened Ast
  import opened Tokens
  import opened Literals
  import opened Grammar

  /** How floats are written. */
  type FloatPrinter = Float -> string

  const NOWHERE: Span := Span(Position(1, 1), Position(1, 1))

  function Put(kind: TokenKind, lexeme: string, k: Stream): Stream {
    More(Token(kind, lexeme, NOWHERE), k)
  }

  function LevelOf(op: BinaryOp): (level: nat)
    ensures 1 <= level <= 6
  {
    match op
    case Multiply => 1
    case Divide => 1
    case Remainder => 1
    case Add => 2
    case Subtract => 2
    case Less => 3
    case LessEqual => 3
    case Greater => 3
    case GreaterEqual => 3
    case Equal => 4
    case NotEqual => 4
    case And => 5
    case Or => 6
  }

  function SymbolOf(op: BinaryOp): (kind: TokenKind)
    ensures OperatorAt(LevelOf(op), kind) == Some(op)
    ensures forall level | 0 <= level <= 6 && level != LevelOf(op) :: OperatorAt(level, kind) == None
  {
    match op
    case Multiply => Star
    case Divide => Slash
    case Remainder => Percent
    case Add => Plus
    case Subtract => Minus
    case Less => LessSign
    case LessEqual => LessEqualSign
    case Greater => GreaterSign
    case GreaterEqual => GreaterEqualSign
    case Equal => EqualEqual
    case NotEqual => BangEqual
    case And => AndAnd
    case Or => OrOr
  }

  /**
   * How loosely a node binds: 0 postfix and primary, 1 unary, 2 to 7 the binary
   * levels, 8 assignment, 9 what is never printed bare as an operand.
   */
  function Rank(e: Expr): (rank: nat)
    ensures rank <= 9
  {
    match e
    case Assignment(_, _) => 8
    case Binary(_, op, _) => LevelOf(op) + 1
    case Unary(_, _) => 1
    case Effect(op, _) => if op.Receive? then 0 else 9
    case _ => 0
  }

  predicate NeedsParens(e: Expr, ctx: nat, cons: bool) {
    Rank(e) > ctx || (e.Construct? && !cons)
  }

  // ----- trees the parser produces -----

  predicate Shaped(e: Expr) {
    match e
    case Located(_, _) => false
    case Assignment(target, _) => target.Identifier? || target.Property? || target.Index?
    case Effect(Connect(_, _), operands) => |operands| == 1
    case Effect(Receive, operands) => |operands| == 1
    case Effect(Send, operands) => |operands| == 2 || |operands| == 3
    case Effect(Request(_), operands) => |operands| == 1 || (|operands| == 2 && operands[1].ObjectLit?)
    case _ => true
  }

  function Parts(e: Expr): (parts: seq<Expr>)
    ensures forall i | 0 <= i < |parts| :: parts[i] < e
  {
    if e.Assignment? then [e.target, e.value] else if e.Located? then [e.inner] else Operands(e)
  }

  /** Every node has the shape the grammar gives it, and every float can be written so that it reads back. */
  predicate Producible(m: Mode, show: FloatPrinter, e: Expr)
    decreases e
  {
    && Shaped(e)
    && (e.FloatLit? ==> e.float.Finite? && m.floats(show(e.float)) == Some(e.float))
    && forall i | 0 <= i < |Parts(e)| :: Producible(m, show, Parts(e)[i])
  }

  // ----- printing -----

  function Print(show: FloatPrinter, e: Expr, ctx: nat, cons: bool, k: Stream): Stream
    decreases e, 2
  {
    if NeedsParens(e, ctx, cons)
    then Put(LeftParen, "(", PrintBare(show, e, true, Put(RightParen, ")", k)))
    else PrintBare(show, e, cons, k)
  }

  function PrintBare(show: FloatPrinter, e: Expr, cons: bool, k: Stream): Stream
    decreases e, 1
  {
    match e
    case Located(_, inner) => Print(show, inner, 0, cons, k)
    case IntegerLit(i) => Put(IntegerToken, SignedDecimal(i), k)
    case FloatLit(x) => Put(FloatToken, show(x), k)
    case StringLit(text) => Put(StringToken, Quoted(text), k)
    case BooleanLit(b) => Put(if b then TrueWord else FalseWord, "", k)
    case NullLit => Put(NullWord, "null", k)
    case DurationLit(d) => Put(DurationToken, Decimal(d) + "ms", k)
    case Identifier(name) => Put(IdentifierToken, name, k)
    case ArrayLit(elements) => Put(LeftBracket, "[", PrintItems(show, e, elements, 0, RightBracket, k))
    case ObjectLit(fields) => Put(LeftBrace, "{", PrintFields(show, e, fields, 0, k))
    case Construct(name, fields) => Put(IdentifierToken, name, Put(LeftBrace, "{", PrintFields(show, e, fields, 0, k)))
    case Unary(op, operand) => Put(if op.Not? then Bang else Minus, "", Print(show, operand, 1, cons, k))
    case Binary(left, op, right) =>
      Print(show, left, LevelOf(op) + 1, cons, Put(SymbolOf(op), "", Print(show, right, LevelOf(op), cons, k)))
    case Assignment(target, value) =>
      Print(show, target, 0, cons, Put(EqualSign, "=", Print(show, value, 8, cons, k)))
    case Call(callee, arguments) =>
      Print(show, callee, 0, cons, Put(LeftParen, "(", PrintItems(show, e, arguments, 0, RightParen, k)))
    case Property(owner, name) => Print(show, owner, 0, cons, Put(Dot, ".", Put(IdentifierToken, name, k)))
    case Index(owner, index) =>
      Print(show, owner, 0, cons, Put(LeftBracket, "[", Print(show, index, 8, true, Put(RightBracket, "]", k))))
    case Effect(op, operands) => PrintEffect(show, e, cons, k)
  }

  function PrintEffect(show: FloatPrinter, e: Expr, cons: bool, k: Stream): Stream
    requires e.Effect?
    decreases e, 0
  {
    var operands := e.operands;
    match e.op
    case Connect(transport, protocol) =>
      if |operands| != 1 then k
      else
        Put(TransportWord(transport), "",
            Print(show, operands[0], 7, false,
                  if protocol.Some? then Put(UsingWord, "using", Put(IdentifierToken, protocol.value, k)) else k))
    case Receive => if |operands| != 1 then k else Print(show, operands[0], 0, cons, Put(ReceiveWord, "RECEIVE", k))
    case Send =>
      if |operands| == 2 then
        Print(show, operands[0], 7, cons, Put(SendWord, "SEND", Print(show, operands[1], 7, cons, k)))
      else if |operands| == 3 then
        Print(show, operands[0], 7, cons, Put(SendWord, "SEND",
              Print(show, operands[1], 7, cons, Put(ToWord, "TO", Print(show, operands[2], 7, cons, k)))))
      else k
    case Request(verb) =>
      if |operands| == 1 then Put(VerbWord(verb), "", Print(show, operands[0], 8, false, k))
      else if |operands| == 2 && operands[1].ObjectLit? then
        Put(VerbWord(verb), "",
            Print(show, operands[0], 8, false, Put(LeftBrace, "{", PrintFields(show, operands[1], operands[1].fields, 0, k))))
      else k
  }

  function Quoted(text: string): string {
    "\"" + Escape(text) + "\""
  }

  function PrintItems(show: FloatPrinter, parent: Expr, es: seq<Expr>, i: nat, closing: TokenKind, k: Stream): Stream
    requires forall j | 0 <= j < |es| :: es[j] < parent
    decreases parent, 0, |es| - i
  {
    if i >= |es| then Put(closing, "", k)
    else
      Print(show, es[i], 8, true,
            if i + 1 < |es| then Put(Comma, ",", PrintItems(show, parent, es, i + 1, closing, k)) else Put(closing, "", k))
  }

  function PrintFields(show: FloatPrinter, parent: Expr, fields: seq<Field>, i: nat, k: Stream): Stream
    requires forall j | 0 <= j < |fields| :: fields[j].value < parent
    decreases parent, 0, |fields| - i
  {
    if i >= |fields| then Put(RightBrace, "}", k)
    else
      Put(StringToken, Quoted(fields[i].key), Put(Colon, ":",
          Print(show, fields[i].value, 8, true,
                if i + 1 < |fields| then Put(Comma, ",", PrintFields(show, parent, fields, i + 1, k)) else Put(RightBrace, "}", k))))
  }
}
