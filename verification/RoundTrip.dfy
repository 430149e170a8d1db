/**
 * Parsing what was printed gives the tree back: the precedence table the
 * printer follows is the one the parser implements.
 */
module RoundTrip {
  import opened Wrappers
  import opened Source
  import opened Ast
  import opened Tokens
  import opened Literals
  import opened Grammar
  import opened Printing

  /** The parse succeeds with this tree and leaves exactly these tokens. */
  ghost predicate Yields<T>(r: Parse<T>, value: T, k: Stream) {
    r.Parsed? && r.value == value && r.cursor.rest == k
  }

  function ParseAt(m: Mode, c: Cursor, cons: bool, ctx: nat): Parse<Expr>
    requires ctx <= 8
  {
    if ctx == 0 then ParsePostfix(m, c, cons)
    else if ctx == 8 then ParseAssignment(m, c, cons)
    else ParseBinary(m, c, cons, ctx - 1)
  }

  function FirstOperator(k: Stream, level: nat): Option<BinaryOp> {
    if k.More? then OperatorAt(level, k.head.kind) else None
  }

  /** Nothing in front of `k` can go on at this context. */
  predicate Stops(ctx: nat, cons: bool, k: Stream) {
    && !k.Starts(LeftParen) && !k.Starts(LeftBracket) && !k.Starts(ReceiveWord) && !k.Starts(Dot)
    && (cons ==> !k.Starts(LeftBrace))
    && (forall level | 1 <= level <= 6 && level + 1 <= ctx :: FirstOperator(k, level).None?)
    && (ctx >= 8 ==> !k.Starts(SendWord) && !k.Starts(EqualSign))
  }

  /** Delimiters end any expression. */
  predicate Closes(kind: TokenKind) {
    kind.RightParen? || kind.RightBracket? || kind.RightBrace? || kind.Comma? || kind.UsingWord? || kind.Semicolon?
  }

  lemma CloserStops(ctx: nat, cons: bool, k: Stream)
    requires k.More? && Closes(k.head.kind)
    ensures Stops(ctx, cons, k)
  {
  }

  lemma PutStops(kind: TokenKind, lexeme: string, k: Stream, ctx: nat, cons: bool)
    requires Closes(kind)
    ensures Stops(ctx, cons, Put(kind, lexeme, k))
  {
  }

  lemma EndStops(ctx: nat, cons: bool, k: Stream)
    requires k.End?
    ensures Stops(ctx, cons, k)
  {
  }

  lemma WordStops(cons: bool, k: Stream)
    requires k.Starts(SendWord) || k.Starts(ToWord) || k.Starts(EqualSign)
    ensures Stops(7, cons, k)
  {
  }

  lemma BraceStops(k: Stream)
    requires k.Starts(LeftBrace)
    ensures Stops(8, false, k)
  {
  }

  lemma SymbolStops(op: BinaryOp, cons: bool, k: Stream)
    requires k.Starts(SymbolOf(op))
    ensures Stops(LevelOf(op), cons, k) && !k.Starts(LeftBrace)
    ensures FirstOperator(k, LevelOf(op)) == Some(op)
  {
  }

  /** Stopping at a loose context is stopping at every tighter one. */
  lemma StopsTighter(ctx: nat, tighter: nat, cons: bool, k: Stream)
    requires Stops(ctx, cons, k) && tighter <= ctx
    ensures Stops(tighter, cons, k)
    ensures !k.Starts(LeftParen) && !k.Starts(LeftBracket) && !k.Starts(ReceiveWord) && !k.Starts(Dot)
    ensures cons ==> !k.Starts(LeftBrace)
    ensures 2 <= ctx <= 7 ==> FirstOperator(k, ctx - 1).None?
    ensures ctx >= 8 ==> !k.Starts(SendWord) && !k.Starts(EqualSign)
  {
  }

  lemma PartsProducible(m: Mode, show: FloatPrinter, e: Expr)
    requires Producible(m, show, e)
    ensures Shaped(e) && forall i | 0 <= i < |Parts(e)| :: Parts(e)[i] < e && Producible(m, show, Parts(e)[i])
  {
  }

  lemma OwnerProducible(m: Mode, show: FloatPrinter, e: Expr)
    requires Producible(m, show, e)
    ensures e.Call? ==> e.callee < e && Producible(m, show, e.callee)
    ensures e.Index? ==> e.owner < e && Producible(m, show, e.owner) && e.index < e && Producible(m, show, e.index)
    ensures e.Property? ==> e.owner < e && Producible(m, show, e.owner)
    ensures e.Effect? && e.op.Receive? ==> |e.operands| == 1 && e.operands[0] < e && Producible(m, show, e.operands[0])
  {
    PartsProducible(m, show, e);
    if e.Call? {
      assert e.callee == Parts(e)[0];
    } else if e.Index? {
      assert e.owner == Parts(e)[0] && e.index == Parts(e)[1];
    } else if e.Property? {
      assert e.owner == Parts(e)[0];
    } else if e.Effect? && e.op.Receive? {
      assert e.operands[0] == Parts(e)[0];
    }
  }

  lemma ArgumentsProducible(m: Mode, show: FloatPrinter, e: Expr)
    requires e.Call? && Producible(m, show, e)
    ensures forall i | 0 <= i < |e.arguments| :: e.arguments[i] < e && Producible(m, show, e.arguments[i])
  {
    hide Producible;
    PartsProducible(m, show, e);
    forall i | 0 <= i < |e.arguments|
      ensures Producible(m, show, e.arguments[i])
    {
      assert e.arguments[i] == Parts(e)[i + 1];
    }
  }

  // ----- first tokens -----

  predicate OpensPostfix(kind: TokenKind) {
    IsLiteral(kind) || kind.IdentifierToken? || kind.LeftParen? || kind.LeftBracket? || kind.LeftBrace?
  }

  predicate Opens(kind: TokenKind) {
    OpensPostfix(kind) || kind.Bang? || kind.Minus? || kind.TransportWord? || kind.VerbWord?
  }

  lemma {:induction false} PrintOpens(m: Mode, show: FloatPrinter, e: Expr, ctx: nat, cons: bool, k: Stream)
    requires Producible(m, show, e)
    ensures var s := Print(show, e, ctx, cons, k);
            s.More? && Opens(s.head.kind) && (NeedsParens(e, ctx, cons) || Rank(e) == 0 ==> OpensPostfix(s.head.kind))
    decreases e
  {
    if NeedsParens(e, ctx, cons) { return; }
    BareOpens(m, show, e, cons, k);
  }

  lemma {:induction false} BareOpens(m: Mode, show: FloatPrinter, e: Expr, cons: bool, k: Stream)
    requires Producible(m, show, e)
    ensures var s := PrintBare(show, e, cons, k);
            s.More? && Opens(s.head.kind) && (Rank(e) == 0 ==> OpensPostfix(s.head.kind))
    decreases e, 0
  {
    if e.Binary? {
      assert Parts(e)[0] == e.left;
      PrintOpens(m, show, e.left, LevelOf(e.binary) + 1, cons,
                 Put(SymbolOf(e.binary), "", Print(show, e.right, LevelOf(e.binary), cons, k)));
    } else if e.Assignment? {
      assert Parts(e)[0] == e.target;
      PrintOpens(m, show, e.target, 0, cons, Put(EqualSign, "=", Print(show, e.value, 8, cons, k)));
    } else if e.Call? {
      assert Parts(e)[0] == e.callee;
      PrintOpens(m, show, e.callee, 0, cons, Put(LeftParen, "(", PrintItems(show, e, e.arguments, 0, RightParen, k)));
    } else if e.Property? {
      assert Parts(e)[0] == e.owner;
      PrintOpens(m, show, e.owner, 0, cons, Put(Dot, ".", Put(IdentifierToken, e.name, k)));
    } else if e.Index? {
      assert Parts(e)[0] == e.owner;
      PrintOpens(m, show, e.owner, 0, cons, Put(LeftBracket, "[", Print(show, e.index, 8, true, Put(RightBracket, "]", k))));
    } else if e.Effect? && (e.op.Receive? || e.op.Send?) {
      assert Parts(e)[0] == e.operands[0];
      EffectOpens(m, show, e, cons, k);
    }
  }

  lemma {:induction false} EffectOpens(m: Mode, show: FloatPrinter, e: Expr, cons: bool, k: Stream)
    requires Producible(m, show, e) && e.Effect? && (e.op.Receive? || e.op.Send?) && Producible(m, show, e.operands[0])
    ensures var s := PrintEffect(show, e, cons, k);
            s.More? && Opens(s.head.kind) && (e.op.Receive? ==> OpensPostfix(s.head.kind))
    decreases e, 0, 0
  {
    var first := e.operands[0];
    if e.op.Receive? {
      PrintOpens(m, show, first, 0, cons, Put(ReceiveWord, "RECEIVE", k));
    } else if |e.operands| == 2 {
      PrintOpens(m, show, first, 7, cons, Put(SendWord, "SEND", Print(show, e.operands[1], 7, cons, k)));
    } else {
      PrintOpens(m, show, first, 7, cons, Put(SendWord, "SEND",
                 Print(show, e.operands[1], 7, cons, Put(ToWord, "TO", Print(show, e.operands[2], 7, cons, k)))));
    }
  }

  // ----- printed tokens as the parser meets them -----

  lemma PutFacts(c: Cursor, kind: TokenKind, lexeme: string, k: Stream)
    requires c.rest == Put(kind, lexeme, k)
    ensures c.Starts(kind) && c.Next().rest == k && c.Peek().lexeme == lexeme && c.rest.More? && c.rest.head.kind == kind
  {
  }

  lemma NoBrace(kind: TokenKind, lexeme: string, k: Stream)
    requires kind != LeftBrace
    ensures !Put(kind, lexeme, k).Starts(LeftBrace)
  {
  }

  // ----- one step of the parser at a time -----

  lemma PostfixStep(m: Mode, c: Cursor, start: Position, e: Expr, longer: Expr, after: Cursor)
    requires !m.spans && ParsePostfixOne(m, c, e) == Parsed(Some(longer), after)
    ensures ParsePostfixRest(m, c, start, e) == ParsePostfixRest(m, after, start, longer)
  {
    hide ParsePostfixOne;
  }

  lemma CallOne(m: Mode, c: Cursor, e: Expr, arguments: seq<Expr>, after: Cursor)
    requires c.Starts(LeftParen) && ParseList(m, c.Next(), RightParen) == Parsed(arguments, after)
    ensures ParsePostfixOne(m, c, e) == Parsed(Some(Call(e, arguments)), after)
  {
    hide ParseList, ParseAssignment;
  }

  lemma IndexOne(m: Mode, c: Cursor, e: Expr, index: Expr, next: Cursor)
    requires c.Starts(LeftBracket) && ParseAssignment(m, c.Next(), true) == Parsed(index, next) && next.Starts(RightBracket)
    ensures ParsePostfixOne(m, c, e) == Parsed(Some(Index(e, index)), next.Next())
  {
    hide ParseList, ParseAssignment;
  }

  lemma ReceiveOne(m: Mode, c: Cursor, e: Expr)
    requires c.Starts(ReceiveWord)
    ensures ParsePostfixOne(m, c, e) == Parsed(Some(Effect(Receive, [e])), c.Next())
  {
    hide ParseList, ParseAssignment;
  }

  lemma PropertyOne(m: Mode, c: Cursor, e: Expr)
    requires c.Starts(Dot) && c.Next().Starts(IdentifierToken)
    ensures ParsePostfixOne(m, c, e) == Parsed(Some(Property(e, c.Next().Peek().lexeme)), c.Next().Next())
  {
    hide ParseList, ParseAssignment;
  }

  lemma NetworkPrimary(m: Mode, c: Cursor, cons: bool)
    requires c.rest.More?
    ensures c.rest.head.kind.VerbWord? ==> ParsePrimaryInner(m, c, cons) == ParseRequest(m, c.Next(), c.rest.head.kind.verb)
    ensures c.rest.head.kind.TransportWord? ==> ParsePrimaryInner(m, c, cons) == ParseConnection(m, c.Next(), c.rest.head.kind.transport)
  {
    hide ParseRequest, ParseConnection, ParseList, ParseFields, ParseAssignment, ParseObject;
  }

  lemma UnaryStep(m: Mode, c: Cursor, cons: bool, op: UnaryOp, operand: Expr, after: Cursor)
    requires !m.spans && c.Starts(if op.Not? then Bang else Minus) && ParseUnary(m, c.Next(), cons) == Parsed(operand, after)
    ensures ParseUnary(m, c, cons) == Parsed(Unary(op, operand), after)
  {
    hide ParsePostfix;
  }

  lemma UnaryPasses(m: Mode, c: Cursor, cons: bool)
    requires !c.Starts(Bang) && !c.Starts(Minus)
    ensures ParseUnary(m, c, cons) == ParsePostfix(m, c, cons)
  {
    hide ParsePostfix;
  }

  lemma DestinationStep(m: Mode, c: Cursor, cons: bool)
    ensures !c.Starts(ToWord) ==> ParseDestination(m, c, cons) == Parsed(None, c)
    ensures c.Starts(ToWord) && ParseBinary(m, c.Next(), cons, 6).Parsed? ==>
              var r := ParseBinary(m, c.Next(), cons, 6);
              ParseDestination(m, c, cons) == Parsed(Some(r.value), r.cursor)
  {
    hide ParseBinary;
  }

  lemma PostfixStops(m: Mode, c: Cursor, start: Position, e: Expr)
    requires !c.Starts(LeftParen) && !c.Starts(LeftBracket) && !c.Starts(ReceiveWord) && !c.Starts(Dot)
    ensures ParsePostfixRest(m, c, start, e) == Parsed(e, c)
  {
    hide ParseList, ParseAssignment;
    assert ParsePostfixOne(m, c, e) == Parsed(None, c);
  }

  lemma PrimaryStep(m: Mode, c: Cursor, cons: bool, e: Expr, after: Cursor)
    requires !m.spans && ParsePrimaryInner(m, c, cons) == Parsed(e, after)
    ensures ParsePostfix(m, c, cons) == ParsePostfixRest(m, after, Start(c), e)
  {
    hide ParsePrimaryInner, ParsePostfixRest;
    assert ParsePrimary(m, c, cons) == Parsed(e, after);
  }

  lemma BinaryStep(m: Mode, c: Cursor, cons: bool, level: nat, first: Expr, next: Cursor)
    requires 1 <= level <= 6 && ParseBinary(m, c, cons, level - 1) == Parsed(first, next)
    ensures ParseBinary(m, c, cons, level) == ParseBinaryRest(m, next, cons, level, Start(c), first)
  {
    hide ParseBinaryRest;
  }

  lemma OperatorStep(m: Mode, c: Cursor, cons: bool, level: nat, start: Position, left: Expr, op: BinaryOp, right: Expr, after: Cursor)
    requires 1 <= level <= 6 && !m.spans && NextOperator(c, level) == Some(op)
    requires ParseBinary(m, c.Next(), cons, level - 1) == Parsed(right, after)
    ensures ParseBinaryRest(m, c, cons, level, start, left) == ParseBinaryRest(m, after, cons, level, start, Binary(left, op, right))
  {
    hide ParseBinary;
  }

  lemma OperatorStops(m: Mode, c: Cursor, cons: bool, level: nat, start: Position, left: Expr)
    requires 1 <= level <= 6 && NextOperator(c, level).None?
    ensures ParseBinaryRest(m, c, cons, level, start, left) == Parsed(left, c)
  {
    hide ParseBinary;
  }

  /** Without a send or an equals sign the loosest levels pass through. */
  lemma AssignmentPasses(m: Mode, c: Cursor, cons: bool, e: Expr, after: Cursor)
    requires ParseBinary(m, c, cons, 6) == Parsed(e, after) && !after.Starts(SendWord) && !after.Starts(EqualSign)
    ensures ParseAssignment(m, c, cons) == Parsed(e, after)
  {
    hide ParseBinary;
    assert ParseSend(m, c, cons) == Parsed(e, after);
  }

  lemma AssignmentStep(m: Mode, c: Cursor, cons: bool, target: Expr, next: Cursor, value: Expr, after: Cursor)
    requires !m.spans && ParseBinary(m, c, cons, 6) == Parsed(target, next) && next.Starts(EqualSign) && Assignable(target)
    requires ParseAssignment(m, next.Next(), cons) == Parsed(value, after)
    ensures ParseAssignment(m, c, cons) == Parsed(Assignment(target, value), after)
  {
    hide ParseBinary;
    assert ParseSend(m, c, cons) == Parsed(target, next);
  }

  lemma PostfixPasses(m: Mode, c: Cursor, cons: bool, e: Expr, after: Cursor)
    requires ParsePostfix(m, c, cons) == Parsed(e, after) && !c.Starts(Bang) && !c.Starts(Minus)
    ensures ParseBinary(m, c, cons, 0) == Parsed(e, after)
  {
    hide ParsePostfix;
    assert ParseUnary(m, c, cons) == Parsed(e, after);
  }

  /** A postfix expression in front of a closing parenthesis or a semicolon is a whole expression. */
  lemma {:induction false} BinaryPasses(m: Mode, c: Cursor, cons: bool, e: Expr, after: Cursor, level: nat)
    requires level <= 6 && ParsePostfix(m, c, cons) == Parsed(e, after) && (after.Starts(RightParen) || after.Starts(Semicolon))
    requires !c.Starts(Bang) && !c.Starts(Minus)
    ensures ParseBinary(m, c, cons, level) == Parsed(e, after)
  {
    hide *;
    if level == 0 {
      PostfixPasses(m, c, cons, e, after);
    } else {
      BinaryPasses(m, c, cons, e, after, level - 1);
      BinaryStep(m, c, cons, level, e, after);
      NoOperator(after, level);
      OperatorStops(m, after, cons, level, Start(c), e);
    }
  }

  lemma NoOperator(c: Cursor, level: nat)
    requires c.Starts(RightParen) || c.Starts(Semicolon)
    ensures NextOperator(c, level).None?
  {
  }

  lemma PrimaryIsWhole(m: Mode, c: Cursor, cons: bool, e: Expr, after: Cursor)
    requires !m.spans && ParsePrimaryInner(m, c, cons) == Parsed(e, after) && (after.Starts(RightParen) || after.Starts(Semicolon))
    requires !c.Starts(Bang) && !c.Starts(Minus)
    ensures ParseAssignment(m, c, cons) == Parsed(e, after)
  {
    hide ParsePrimaryInner, ParsePostfix, ParseBinary, ParseAssignment, ParsePostfixRest;
    PrimaryStep(m, c, cons, e, after);
    PostfixStops(m, after, Start(c), e);
    BinaryPasses(m, c, cons, e, after, 6);
    AssignmentPasses(m, c, cons, e, after);
  }

  // ----- literals and lists -----

  predicate IsLiteralNode(e: Expr) {
    e.IntegerLit? || e.FloatLit? || e.StringLit? || e.BooleanLit? || e.NullLit? || e.DurationLit?
  }

  /** The token a literal is printed as reads back as that literal. */
  lemma LiteralReads(m: Mode, show: FloatPrinter, e: Expr, cons: bool, k: Stream)
    requires Producible(m, show, e) && IsLiteralNode(e)
    ensures var s := PrintBare(show, e, cons, k);
            s.More? && s.tail == k && IsLiteral(s.head.kind) && LiteralOf(m, s.head) == Ok(e)
  {
    hide Escape, Decimal, SignedDecimal;
    var token := PrintBare(show, e, cons, k).head;
    if e.IntegerLit? {
      SignedRoundTrip(e.integer);
    } else if e.StringLit? {
      QuotedRoundTrip(token, e.text);
    } else if e.DurationLit? {
      DurationRoundTrip(token, e.duration);
    }
  }

  lemma LiteralParses(m: Mode, show: FloatPrinter, c: Cursor, cons: bool, e: Expr, k: Stream)
    requires Producible(m, show, e) && c.rest == PrintBare(show, e, cons, k) && IsLiteralNode(e)
    ensures ParsePrimaryInner(m, c, cons) == Parsed(e, c.Next()) && c.Next().rest == k
  {
    hide Producible, PrintBare, LiteralOf;
    LiteralReads(m, show, e, cons, k);
  }

  /** The elements of a list from `i` on. */
  lemma {:induction false} ItemsParse(
    m: Mode, show: FloatPrinter, c: Cursor, parent: Expr, es: seq<Expr>, i: nat, closing: TokenKind, done: seq<Expr>, k: Stream)
    requires !m.spans && i < |es| && (closing == RightParen || closing == RightBracket)
    requires forall j | 0 <= j < |es| :: es[j] < parent && Producible(m, show, es[j])
    requires c.rest == PrintItems(show, parent, es, i, closing, k)
    ensures Yields(ParseItems(m, c, closing, done), done + es[i..], k)
    decreases parent, 0, 0, |es| - i
  {
    hide Stops, Producible, Print, ParseAssignment;
    var last := i + 1 == |es|;
    var behind := if last then Put(closing, "", k) else Put(Comma, ",", PrintItems(show, parent, es, i + 1, closing, k));
    CloserStops(8, true, behind);
    Whole(m, show, c, true, es[i], 8, behind);
    var next := ParseAssignment(m, c, true).cursor;
    assert es[i..] == [es[i]] + es[i + 1..];
    if last {
      assert done + [es[i]] == done + es[i..];
    } else {
      PrintOpens(m, show, es[i + 1], 8, true,
                 if i + 2 < |es| then Put(Comma, ",", PrintItems(show, parent, es, i + 2, closing, k)) else Put(closing, "", k));
      ItemsParse(m, show, next.Next(), parent, es, i + 1, closing, done + [es[i]], k);
      assert done + [es[i]] + es[i + 1..] == done + es[i..];
    }
  }

  lemma EmptyItems(show: FloatPrinter, parent: Expr, closing: TokenKind, k: Stream)
    ensures PrintItems(show, parent, [], 0, closing, k) == Put(closing, "", k)
  {
  }

  /** A printed list does not begin with its closing delimiter. */
  lemma FirstItem(m: Mode, show: FloatPrinter, parent: Expr, es: seq<Expr>, closing: TokenKind, k: Stream)
    requires es != [] && (closing == RightParen || closing == RightBracket)
    requires forall j | 0 <= j < |es| :: es[j] < parent && Producible(m, show, es[j])
    ensures !PrintItems(show, parent, es, 0, closing, k).Starts(closing)
  {
    hide Print, Producible;
    PrintOpens(m, show, es[0], 8, true,
               if 1 < |es| then Put(Comma, ",", PrintItems(show, parent, es, 1, closing, k)) else Put(closing, "", k));
  }

  lemma {:induction false} ListParses(
    m: Mode, show: FloatPrinter, c: Cursor, parent: Expr, es: seq<Expr>, closing: TokenKind, k: Stream)
    requires !m.spans && (closing == RightParen || closing == RightBracket)
    requires forall j | 0 <= j < |es| :: es[j] < parent && Producible(m, show, es[j])
    requires c.rest == PrintItems(show, parent, es, 0, closing, k)
    ensures Yields(ParseList(m, c, closing), es, k)
    decreases parent, 0, 0, |es| + 1
  {
    hide ParseItems, Print, Producible, PrintItems;
    if es == [] {
      EmptyItems(show, parent, closing, k);
      PutFacts(c, closing, "", k);
      return;
    }
    FirstItem(m, show, parent, es, closing, k);
    ItemsParse(m, show, c, parent, es, 0, closing, [], k);
    assert [] + es[0..] == es;
  }

  lemma {:induction false} FieldParses(m: Mode, show: FloatPrinter, c: Cursor, parent: Expr, field: Field, k: Stream)
    requires !m.spans && field.value < parent && Producible(m, show, field.value)
    requires c.rest == Put(StringToken, Quoted(field.key), Put(Colon, ":", Print(show, field.value, 8, true, k)))
    requires k.Starts(Comma) || k.Starts(RightBrace)
    ensures Yields(ParseField(m, c), field, k)
    decreases parent, 0, 0, 0
  {
    hide ParseAssignment, Print, Stops, Producible, StringOf, Escape;
    QuotedRoundTrip(c.rest.head, field.key);
    CloserStops(8, true, k);
    Whole(m, show, c.Next().Next(), true, field.value, 8, k);
  }

  lemma {:induction false} FieldItemsParse(
    m: Mode, show: FloatPrinter, c: Cursor, parent: Expr, fields: seq<Field>, i: nat, done: seq<Field>, k: Stream)
    requires !m.spans && i < |fields|
    requires forall j | 0 <= j < |fields| :: fields[j].value < parent && Producible(m, show, fields[j].value)
    requires c.rest == PrintFields(show, parent, fields, i, k)
    ensures Yields(ParseFieldItems(m, c, done), done + fields[i..], k)
    decreases parent, 0, 0, |fields| - i + 1
  {
    hide ParseField, Print, Producible, Quoted;
    var last := i + 1 == |fields|;
    var behind := if last then Put(RightBrace, "}", k) else Put(Comma, ",", PrintFields(show, parent, fields, i + 1, k));
    FieldParses(m, show, c, parent, fields[i], behind);
    var next := ParseField(m, c).cursor;
    assert fields[i..] == [fields[i]] + fields[i + 1..];
    if last {
      assert done + [fields[i]] == done + fields[i..];
    } else {
      FieldItemsParse(m, show, next.Next(), parent, fields, i + 1, done + [fields[i]], k);
      assert done + [fields[i]] + fields[i + 1..] == done + fields[i..];
    }
  }

  lemma {:induction false} FieldsParse(m: Mode, show: FloatPrinter, c: Cursor, parent: Expr, fields: seq<Field>, k: Stream)
    requires !m.spans
    requires forall j | 0 <= j < |fields| :: fields[j].value < parent && Producible(m, show, fields[j].value)
    requires c.rest == PrintFields(show, parent, fields, 0, k)
    ensures Yields(ParseFields(m, c), fields, k)
    decreases parent, 0, 0, |fields| + 2
  {
    hide ParseFieldItems, Print;
    if fields != [] {
      FieldItemsParse(m, show, c, parent, fields, 0, [], k);
      assert [] + fields[0..] == fields;
    }
  }

  // ----- expressions -----

  function Wrapped(e: Expr, ctx: nat, cons: bool): nat {
    if NeedsParens(e, ctx, cons) then 1 else 0
  }

  /** Parenthesised, any expression is a primary. */
  lemma {:induction false} ParenParses(m: Mode, show: FloatPrinter, c: Cursor, cons: bool, e: Expr, k: Stream) returns (after: Cursor)
    requires !m.spans && Producible(m, show, e)
    requires c.rest == Put(LeftParen, "(", PrintBare(show, e, true, Put(RightParen, ")", k)))
    ensures ParsePrimaryInner(m, c, cons) == Parsed(e, after) && after.rest == k
    decreases e, 0, 101, 0
  {
    hide ParseAssignment, PrintBare, Producible;
    InsideParses(m, show, c.Next(), e, Put(RightParen, ")", k));
    after := ParseAssignment(m, c.Next(), true).cursor.Next();
  }

  /** Between parentheses everything may be bare, network expressions included. */
  lemma {:induction false} InsideParses(m: Mode, show: FloatPrinter, c: Cursor, e: Expr, k: Stream)
    requires !m.spans && Producible(m, show, e) && c.rest == PrintBare(show, e, true, k) && k.Starts(RightParen)
    ensures Yields(ParseAssignment(m, c, true), e, k)
    decreases e, 0, 100, 0
  {
    hide ParseAssignment, PrintBare, Producible, Stops;
    CloserStops(8, true, k);
    if Rank(e) <= 8 {
      Whole(m, show, c, true, e, 8, k);
    } else {
      NetworkParses(m, show, c, e, k);
    }
  }

  lemma {:induction false} NetworkParses(m: Mode, show: FloatPrinter, c: Cursor, e: Expr, k: Stream)
    requires !m.spans && Producible(m, show, e) && e.Effect? && !e.op.Receive?
    requires c.rest == PrintBare(show, e, true, k) && k.Starts(RightParen)
    ensures Yields(ParseAssignment(m, c, true), e, k)
    decreases e, 0, 99, 0
  {
    PartsProducible(m, show, e);
    assert forall i | 0 <= i < |e.operands| :: e.operands[i] == Parts(e)[i];
    hide ParseAssignment, ParsePrimaryInner, Producible, PrintEffect;
    if e.op.Send? {
      SendParses(m, show, c, e, k);
    } else if e.op.Connect? {
      var after := ConnectParses(m, show, c, e, k);
      PrimaryIsWhole(m, c, true, e, after);
    } else {
      var after := RequestParses(m, show, c, e, k);
      PrimaryIsWhole(m, c, true, e, after);
    }
  }

  lemma {:induction false} SendParses(m: Mode, show: FloatPrinter, c: Cursor, e: Expr, k: Stream)
    requires !m.spans && Producible(m, show, e) && e.Effect? && e.op.Send?
    requires forall i | 0 <= i < |e.operands| :: e.operands[i] < e && Producible(m, show, e.operands[i])
    requires c.rest == PrintEffect(show, e, true, k) && k.Starts(RightParen)
    ensures Yields(ParseAssignment(m, c, true), e, k)
    decreases e, 0, 98, 0
  {
    ShapeOf(m, show, e);
    hide ParseBinary, Print, Producible, Stops, ParseAssignment, ParseDestination;
    var behindData := if |e.operands| == 3 then Put(ToWord, "TO", Print(show, e.operands[2], 7, true, k)) else k;
    var behindConnection := Put(SendWord, "SEND", Print(show, e.operands[1], 7, true, behindData));
    WordStops(true, behindConnection);
    Whole(m, show, c, true, e.operands[0], 7, behindConnection);
    var next := ParseBinary(m, c, true, 6).cursor;
    var middle, after := DataParses(m, show, next.Next(), e, k);
    SendStep(m, c, true, e, next, middle, after);
  }

  /** The data of a send, and its destination if it has one. */
  lemma {:induction false} DataParses(m: Mode, show: FloatPrinter, c: Cursor, e: Expr, k: Stream) returns (middle: Cursor, after: Cursor)
    requires !m.spans && e.Effect? && e.op.Send? && (|e.operands| == 2 || |e.operands| == 3)
    requires forall i | 0 <= i < |e.operands| :: e.operands[i] < e && Producible(m, show, e.operands[i])
    requires k.Starts(RightParen)
    requires c.rest == Print(show, e.operands[1], 7, true,
                             if |e.operands| == 3 then Put(ToWord, "TO", Print(show, e.operands[2], 7, true, k)) else k)
    ensures ParseBinary(m, c, true, 6) == Parsed(e.operands[1], middle)
    ensures ParseDestination(m, middle, true) == Parsed(if |e.operands| == 3 then Some(e.operands[2]) else None, after)
    ensures after.rest == k
    decreases e, 0, 97, 0
  {
    hide ParseBinary, Print, Producible, Stops, ParseDestination;
    CloserStops(7, true, k);
    var three := |e.operands| == 3;
    var behind := if three then Put(ToWord, "TO", Print(show, e.operands[2], 7, true, k)) else k;
    if three {
      WordStops(true, behind);
    }
    Whole(m, show, c, true, e.operands[1], 7, behind);
    middle := ParseBinary(m, c, true, 6).cursor;
    DestinationStep(m, middle, true);
    after := middle;
    if three {
      Whole(m, show, middle.Next(), true, e.operands[2], 7, k);
      after := ParseBinary(m, middle.Next(), true, 6).cursor;
    }
  }

  lemma SendStep(m: Mode, c: Cursor, cons: bool, e: Expr, next: Cursor, middle: Cursor, after: Cursor)
    requires !m.spans && e.Effect? && e.op.Send? && (|e.operands| == 2 || |e.operands| == 3)
    requires ParseBinary(m, c, cons, 6) == Parsed(e.operands[0], next) && next.Starts(SendWord)
    requires ParseBinary(m, next.Next(), cons, 6) == Parsed(e.operands[1], middle)
    requires ParseDestination(m, middle, cons) == Parsed(if |e.operands| == 3 then Some(e.operands[2]) else None, after)
    requires after.Starts(RightParen)
    ensures ParseAssignment(m, c, cons) == Parsed(e, after)
  {
    hide ParseBinary, ParseDestination;
    assert e.operands == [e.operands[0], e.operands[1]] + (if |e.operands| == 3 then [e.operands[2]] else []);
    assert ParseSend(m, c, cons) == Parsed(e, after);
  }

  lemma ShapeOf(m: Mode, show: FloatPrinter, e: Expr)
    requires Producible(m, show, e)
    ensures Shaped(e)
  {
  }

  function Protocol(protocol: Option<string>, k: Stream): Stream {
    if protocol.Some? then Put(UsingWord, "using", Put(IdentifierToken, protocol.value, k)) else k
  }

  lemma ProtocolStops(protocol: Option<string>, k: Stream)
    requires k.Starts(RightParen)
    ensures Stops(7, false, Protocol(protocol, k))
  {
    hide Stops;
    if protocol.Some? {
      PutStops(UsingWord, "using", Put(IdentifierToken, protocol.value, k), 7, false);
    } else {
      CloserStops(7, false, k);
    }
  }

  lemma ProtocolFacts(c: Cursor, protocol: Option<string>, k: Stream)
    requires c.rest == Protocol(protocol, k) && k.Starts(RightParen)
    ensures if protocol.Some?
            then c.Starts(UsingWord) && c.Next().Starts(IdentifierToken) && c.Next().Peek().lexeme == protocol.value
                 && c.Next().Next().rest == k
            else !c.Starts(UsingWord)
  {
  }

  lemma PrintedConnect(show: FloatPrinter, e: Expr, cons: bool, k: Stream)
    requires e.Effect? && e.op.Connect? && |e.operands| == 1
    ensures PrintEffect(show, e, cons, k)
         == Put(TransportWord(e.op.transport), "", Print(show, e.operands[0], 7, false, Protocol(e.op.protocol, k)))
  {
    hide Print;
  }

  lemma {:induction false} ConnectParses(m: Mode, show: FloatPrinter, c: Cursor, e: Expr, k: Stream) returns (after: Cursor)
    requires !m.spans && Producible(m, show, e) && e.Effect? && e.op.Connect? && |e.operands| == 1
    requires e.operands[0] < e && Producible(m, show, e.operands[0])
    requires c.rest == PrintEffect(show, e, true, k) && k.Starts(RightParen)
    ensures ParsePrimaryInner(m, c, true) == Parsed(e, after) && after.rest == k
    decreases e, 0, 98, 0
  {
    PrintedConnect(show, e, true, k);
    var behind := Protocol(e.op.protocol, k);
    var printed := Print(show, e.operands[0], 7, false, behind);
    PutFacts(c, TransportWord(e.op.transport), "", printed);
    NetworkPrimary(m, c, true);
    ProtocolStops(e.op.protocol, k);
    hide ParseBinary, Print, PrintEffect, Producible, Stops, ParsePrimaryInner, ParseConnection, Protocol, Put;
    Whole(m, show, c.Next(), false, e.operands[0], 7, behind);
    var next := ParseBinary(m, c.Next(), false, 6).cursor;
    ProtocolFacts(next, e.op.protocol, k);
    after := if e.op.protocol.Some? then next.Next().Next() else next;
    ConnectStep(m, c.Next(), e, next);
  }

  lemma ConnectStep(m: Mode, c: Cursor, e: Expr, next: Cursor)
    requires e.Effect? && e.op.Connect? && |e.operands| == 1 && ParseBinary(m, c, false, 6) == Parsed(e.operands[0], next)
    requires if e.op.protocol.Some?
             then next.Starts(UsingWord) && next.Next().Starts(IdentifierToken) && next.Next().Peek().lexeme == e.op.protocol.value
             else !next.Starts(UsingWord)
    ensures ParseConnection(m, c, e.op.transport)
         == Parsed(e, if e.op.protocol.Some? then next.Next().Next() else next)
  {
    hide ParseBinary;
    assert e.operands == [e.operands[0]];
  }

  lemma {:induction false} RequestParses(m: Mode, show: FloatPrinter, c: Cursor, e: Expr, k: Stream) returns (after: Cursor)
    requires !m.spans && Producible(m, show, e) && e.Effect? && e.op.Request?
    requires forall i | 0 <= i < |e.operands| :: e.operands[i] < e && Producible(m, show, e.operands[i])
    requires c.rest == PrintEffect(show, e, true, k) && k.Starts(RightParen)
    ensures ParsePrimaryInner(m, c, true) == Parsed(e, after) && after.rest == k
    decreases e, 0, 98, 0
  {
    ShapeOf(m, show, e);
    NetworkPrimary(m, c, true);
    hide ParseAssignment, Print, ParseFields, PrintFields, Stops, Producible, ParseRequest, ParsePrimaryInner, ParseObject;
    if |e.operands| == 2 {
      var config := e.operands[1];
      var behind := Put(LeftBrace, "{", PrintFields(show, config, config.fields, 0, k));
      BraceStops(behind);
      Whole(m, show, c.Next(), false, e.operands[0], 8, behind);
      var next := ParseAssignment(m, c.Next(), false).cursor;
      after := ConfigParses(m, show, next.Next(), config, k);
      ConfiguredRequest(m, c.Next(), e, next, after);
    } else {
      CloserStops(8, false, k);
      Whole(m, show, c.Next(), false, e.operands[0], 8, k);
      after := ParseAssignment(m, c.Next(), false).cursor;
      BareRequest(m, c.Next(), e, after);
    }
  }

  lemma {:induction false} ConfigParses(m: Mode, show: FloatPrinter, c: Cursor, config: Expr, k: Stream) returns (after: Cursor)
    requires !m.spans && config.ObjectLit? && Producible(m, show, config)
    requires c.rest == PrintFields(show, config, config.fields, 0, k)
    ensures ParseObject(m, c) == Parsed(config, after) && after.rest == k
    decreases config, 0, 0, |config.fields| + 3
  {
    PartsProducible(m, show, config);
    hide ParseFields, PrintFields, Producible;
    forall j | 0 <= j < |config.fields|
      ensures config.fields[j].value < config && Producible(m, show, config.fields[j].value)
    {
      assert Parts(config)[j] == config.fields[j].value;
    }
    FieldsParse(m, show, c, config, config.fields, k);
    after := ParseFields(m, c).cursor;
  }

  lemma ConfiguredRequest(m: Mode, c: Cursor, e: Expr, next: Cursor, after: Cursor)
    requires !m.spans && e.Effect? && e.op.Request? && |e.operands| == 2
    requires ParseAssignment(m, c, false) == Parsed(e.operands[0], next) && next.Starts(LeftBrace)
    requires ParseObject(m, next.Next()) == Parsed(e.operands[1], after)
    ensures ParseRequest(m, c, e.op.verb) == Parsed(e, after)
  {
    hide ParseAssignment, ParseObject;
    assert e.operands == [e.operands[0], e.operands[1]];
  }

  lemma BareRequest(m: Mode, c: Cursor, e: Expr, after: Cursor)
    requires !m.spans && e.Effect? && e.op.Request? && |e.operands| == 1
    requires ParseAssignment(m, c, false) == Parsed(e.operands[0], after) && !after.Starts(LeftBrace)
    ensures ParseRequest(m, c, e.op.verb) == Parsed(e, after)
  {
    hide ParseAssignment;
    assert e.operands == [e.operands[0]];
  }

  /** Primaries that hold lists. */
  lemma {:induction false} AggregateParses(m: Mode, show: FloatPrinter, c: Cursor, cons: bool, e: Expr, k: Stream) returns (after: Cursor)
    requires !m.spans && Producible(m, show, e) && c.rest == PrintBare(show, e, cons, k)
    requires e.ArrayLit? || e.ObjectLit? || (e.Construct? && cons)
    ensures ParsePrimaryInner(m, c, cons) == Parsed(e, after) && after.rest == k
    decreases e, 0, 0, |Parts(e)| + 4
  {
    hide ParseList, ParseFields, PrintItems, PrintFields, Producible;
    if e.ArrayLit? {
      after := ElementsParse(m, show, c.Next(), e, k);
    } else if e.ObjectLit? {
      after := ConfigParses(m, show, c.Next(), e, k);
    } else {
      after := ConstructParses(m, show, c.Next().Next(), e, k);
    }
  }

  lemma {:induction false} ElementsParse(m: Mode, show: FloatPrinter, c: Cursor, e: Expr, k: Stream) returns (after: Cursor)
    requires !m.spans && e.ArrayLit? && Producible(m, show, e) && c.rest == PrintItems(show, e, e.elements, 0, RightBracket, k)
    ensures ParseList(m, c, RightBracket) == Parsed(e.elements, after) && after.rest == k
    decreases e, 0, 0, |e.elements| + 3
  {
    PartsProducible(m, show, e);
    hide ParseList, PrintItems, Producible;
    assert forall i | 0 <= i < |e.elements| :: e.elements[i] == Parts(e)[i];
    ListParses(m, show, c, e, e.elements, RightBracket, k);
    after := ParseList(m, c, RightBracket).cursor;
  }

  lemma {:induction false} ConstructParses(m: Mode, show: FloatPrinter, c: Cursor, e: Expr, k: Stream) returns (after: Cursor)
    requires !m.spans && e.Construct? && Producible(m, show, e) && c.rest == PrintFields(show, e, e.fields, 0, k)
    ensures ParseFields(m, c) == Parsed(e.fields, after) && after.rest == k
    decreases e, 0, 0, |e.fields| + 3
  {
    PartsProducible(m, show, e);
    hide ParseFields, PrintFields, Producible;
    forall j | 0 <= j < |e.fields|
      ensures e.fields[j].value < e && Producible(m, show, e.fields[j].value)
    {
      assert Parts(e)[j] == e.fields[j].value;
    }
    FieldsParse(m, show, c, e, e.fields, k);
    after := ParseFields(m, c).cursor;
  }

  /** Parsing a printed postfix expression reaches the postfix loop with that expression in hand. */
  lemma {:induction false} PostfixParses(m: Mode, show: FloatPrinter, c: Cursor, cons: bool, e: Expr, k: Stream) returns (after: Cursor)
    requires !m.spans && Producible(m, show, e) && c.rest == Print(show, e, 0, cons, k) && (cons ==> !k.Starts(LeftBrace))
    ensures after.rest == k && ParsePostfix(m, c, cons) == ParsePostfixRest(m, after, Start(c), e)
    decreases e, Wrapped(e, 0, cons), 0, |Parts(e)| + 5
  {
    hide ParsePostfix, ParsePostfixRest;
    if NeedsParens(e, 0, cons) {
      after := ParenParses(m, show, c, cons, e, k);
      PrimaryStep(m, c, cons, e, after);
    } else if e.Call? || e.Index? || e.Property? || e.Effect? {
      after := SuffixParses(m, show, c, cons, e, k);
    } else if e.ArrayLit? || e.ObjectLit? || e.Construct? {
      after := AggregateParses(m, show, c, cons, e, k);
      PrimaryStep(m, c, cons, e, after);
    } else if e.Identifier? {
      after := c.Next();
      assert ParsePrimaryInner(m, c, cons) == Parsed(e, after);
      PrimaryStep(m, c, cons, e, after);
    } else {
      LiteralParses(m, show, c, cons, e, k);
      after := c.Next();
      PrimaryStep(m, c, cons, e, after);
    }
  }

  /** The last suffix of a postfix expression, behind its owner. */
  lemma {:induction false} SuffixParses(m: Mode, show: FloatPrinter, c: Cursor, cons: bool, e: Expr, k: Stream) returns (after: Cursor)
    requires !m.spans && Producible(m, show, e) && c.rest == PrintBare(show, e, cons, k)
    requires e.Call? || e.Index? || e.Property? || (e.Effect? && e.op.Receive?)
    ensures after.rest == k && ParsePostfix(m, c, cons) == ParsePostfixRest(m, after, Start(c), e)
    decreases e, 0, 0, |Parts(e)| + 4
  {
    OwnerProducible(m, show, e);
    hide ParsePostfix, ParsePostfixRest, ParsePostfixOne, Print, PrintItems, Producible, Parts;
    if e.Call? {
      after := CallParses(m, show, c, cons, e, k);
    } else if e.Index? {
      after := IndexParses(m, show, c, cons, e, k);
    } else if e.Property? {
      after := PropertyParses(m, show, c, cons, e, k);
    } else {
      after := ReceiveParses(m, show, c, cons, e, k);
    }
  }

  lemma {:induction false} PropertyParses(m: Mode, show: FloatPrinter, c: Cursor, cons: bool, e: Expr, k: Stream) returns (after: Cursor)
    requires !m.spans && e.Property? && Producible(m, show, e)
    requires c.rest == Print(show, e.owner, 0, cons, Put(Dot, ".", Put(IdentifierToken, e.name, k)))
    ensures after.rest == k && ParsePostfix(m, c, cons) == ParsePostfixRest(m, after, Start(c), e)
    decreases e, 0, 0, |Parts(e)| + 3
  {
    OwnerProducible(m, show, e);
    hide ParsePostfix, ParsePostfixRest, ParsePostfixOne, Print, Producible, Parts, Put, Start;
    var name := Put(IdentifierToken, e.name, k);
    NoBrace(Dot, ".", name);
    var next := PostfixParses(m, show, c, cons, e.owner, Put(Dot, ".", name));
    after := next.Next().Next();
    PutFacts(next, Dot, ".", name);
    PutFacts(next.Next(), IdentifierToken, e.name, k);
    hide Cursor.Next, Cursor.Peek, Cursor.Starts, Stream.Starts;
    PropertyOne(m, next, e.owner);
    PostfixStep(m, next, Start(c), e.owner, e, after);
  }

  lemma {:induction false} ReceiveParses(m: Mode, show: FloatPrinter, c: Cursor, cons: bool, e: Expr, k: Stream) returns (after: Cursor)
    requires !m.spans && e.Effect? && e.op.Receive? && |e.operands| == 1 && Producible(m, show, e)
    requires c.rest == Print(show, e.operands[0], 0, cons, Put(ReceiveWord, "RECEIVE", k))
    ensures after.rest == k && ParsePostfix(m, c, cons) == ParsePostfixRest(m, after, Start(c), e)
    decreases e, 0, 0, |Parts(e)| + 3
  {
    OwnerProducible(m, show, e);
    var owner := e.operands[0];
    assert e == Effect(Receive, [owner]);
    NoBrace(ReceiveWord, "RECEIVE", k);
    hide ParsePostfix, ParsePostfixRest, ParsePostfixOne, Print, Producible, Parts, Operands, Put, Start;
    var next := PostfixParses(m, show, c, cons, owner, Put(ReceiveWord, "RECEIVE", k));
    after := next.Next();
    PutFacts(next, ReceiveWord, "RECEIVE", k);
    hide Cursor.Next, Cursor.Peek, Cursor.Starts, Stream.Starts;
    ReceiveOne(m, next, owner);
    PostfixStep(m, next, Start(c), owner, e, after);
  }

  lemma {:induction false} CallParses(m: Mode, show: FloatPrinter, c: Cursor, cons: bool, e: Expr, k: Stream) returns (after: Cursor)
    requires !m.spans && e.Call? && Producible(m, show, e)
    requires c.rest == Print(show, e.callee, 0, cons, Put(LeftParen, "(", PrintItems(show, e, e.arguments, 0, RightParen, k)))
    ensures after.rest == k && ParsePostfix(m, c, cons) == ParsePostfixRest(m, after, Start(c), e)
    decreases e, 0, 0, |Parts(e)| + 3
  {
    OwnerProducible(m, show, e);
    ArgumentsProducible(m, show, e);
    hide ParsePostfix, ParsePostfixRest, ParsePostfixOne, ParseList, Print, PrintItems, Producible, Parts;
    var items := PrintItems(show, e, e.arguments, 0, RightParen, k);
    NoBrace(LeftParen, "(", items);
    hide Put, Start;
    var next := PostfixParses(m, show, c, cons, e.callee, Put(LeftParen, "(", items));
    PutFacts(next, LeftParen, "(", items);
    hide Cursor.Next, Cursor.Peek, Cursor.Starts, Stream.Starts;
    ListParses(m, show, next.Next(), e, e.arguments, RightParen, k);
    after := ParseList(m, next.Next(), RightParen).cursor;
    CallOne(m, next, e.callee, e.arguments, after);
    PostfixStep(m, next, Start(c), e.callee, e, after);
  }

  lemma {:induction false} IndexParses(m: Mode, show: FloatPrinter, c: Cursor, cons: bool, e: Expr, k: Stream) returns (after: Cursor)
    requires !m.spans && e.Index? && Producible(m, show, e)
    requires c.rest == Print(show, e.owner, 0, cons, Put(LeftBracket, "[", Print(show, e.index, 8, true, Put(RightBracket, "]", k))))
    ensures after.rest == k && ParsePostfix(m, c, cons) == ParsePostfixRest(m, after, Start(c), e)
    decreases e, 0, 0, |Parts(e)| + 3
  {
    OwnerProducible(m, show, e);
    hide ParsePostfix, ParsePostfixRest, ParsePostfixOne, ParseAssignment, Print, Producible, Stops, Parts;
    var behind := Put(RightBracket, "]", k);
    var inside := Print(show, e.index, 8, true, behind);
    NoBrace(LeftBracket, "[", inside);
    PutStops(RightBracket, "]", k, 8, true);
    hide Put, Start;
    var next := PostfixParses(m, show, c, cons, e.owner, Put(LeftBracket, "[", inside));
    PutFacts(next, LeftBracket, "[", inside);
    Whole(m, show, next.Next(), true, e.index, 8, behind);
    var last := ParseAssignment(m, next.Next(), true).cursor;
    PutFacts(last, RightBracket, "]", k);
    after := last.Next();
    hide Cursor.Next, Cursor.Peek, Cursor.Starts, Stream.Starts;
    IndexOne(m, next, e.owner, e.index, last);
    PostfixStep(m, next, Start(c), e.owner, e, after);
  }

  lemma SidesProducible(m: Mode, show: FloatPrinter, e: Expr)
    requires e.Binary? && Producible(m, show, e)
    ensures Producible(m, show, e.left) && Producible(m, show, e.right)
  {
    assert e.left == Parts(e)[0] && e.right == Parts(e)[1];
  }

  lemma PrintedBinary(show: FloatPrinter, e: Expr, cons: bool, k: Stream)
    requires e.Binary?
    ensures var level := LevelOf(e.binary);
            Print(show, e, level + 1, cons, k)
              == Print(show, e.left, level + 1, cons, Put(SymbolOf(e.binary), "", Print(show, e.right, level, cons, k)))
  {
    assert !NeedsParens(e, LevelOf(e.binary) + 1, cons);
  }

  lemma OperatorFacts(c: Cursor, op: BinaryOp, k: Stream)
    requires c.rest == Put(SymbolOf(op), "", k)
    ensures NextOperator(c, LevelOf(op)) == Some(op) && c.Next().rest == k
  {
  }

  lemma OperatorPutStops(op: BinaryOp, k: Stream, cons: bool)
    ensures Stops(LevelOf(op), cons, Put(SymbolOf(op), "", k))
  {
    SymbolStops(op, cons, Put(SymbolOf(op), "", k));
  }

  /** One operator of a left-associative chain: the left side is the chain before it. */
  lemma {:induction false} OperatorParses(m: Mode, show: FloatPrinter, c: Cursor, cons: bool, e: Expr, k: Stream) returns (after: Cursor)
    requires !m.spans && e.Binary? && Producible(m, show, e)
    requires var level := LevelOf(e.binary); c.rest == Print(show, e, level + 1, cons, k) && Stops(level, cons, k)
    ensures var level := LevelOf(e.binary);
            after.rest == k && ParseBinary(m, c, cons, level) == ParseBinaryRest(m, after, cons, level, Start(c), e)
    decreases e, 0, 2, 0
  {
    hide ParseBinary, ParseBinaryRest, Stops, Producible, Print, LevelOf, SymbolOf, Put, Start;
    var level := LevelOf(e.binary);
    SidesProducible(m, show, e);
    PrintedBinary(show, e, cons, k);
    var right := Print(show, e.right, level, cons, k);
    OperatorPutStops(e.binary, right, cons);
    var next := ChainParses(m, show, c, cons, e.left, level, Put(SymbolOf(e.binary), "", right));
    OperatorFacts(next, e.binary, right);
    hide Cursor.Next, NextOperator;
    Whole(m, show, next.Next(), cons, e.right, level, k);
    after := ParseBinary(m, next.Next(), cons, level - 1).cursor;
    OperatorStep(m, next, cons, level, Start(c), e.left, e.binary, e.right, after);
  }

  /** Parsing a printed operand of a level reaches the loop of that level with that operand in hand. */
  lemma {:induction false} ChainParses(m: Mode, show: FloatPrinter, c: Cursor, cons: bool, e: Expr, level: nat, k: Stream) returns (after: Cursor)
    requires !m.spans && Producible(m, show, e) && 1 <= level <= 6
    requires c.rest == Print(show, e, level + 1, cons, k) && Stops(level, cons, k)
    ensures after.rest == k && ParseBinary(m, c, cons, level) == ParseBinaryRest(m, after, cons, level, Start(c), e)
    decreases e, Wrapped(e, level + 1, cons), 2 * (level + 1), 0
  {
    hide ParseBinary, ParseBinaryRest, Stops, Producible, PrintBare;
    if !NeedsParens(e, level + 1, cons) && e.Binary? && LevelOf(e.binary) == level {
      after := OperatorParses(m, show, c, cons, e, k);
    } else {
      PrintTighter(show, e, level + 1, cons, k);
      hide Print;
      Whole(m, show, c, cons, e, level, k);
      after := ParseBinary(m, c, cons, level - 1).cursor;
      BinaryStep(m, c, cons, level, e, after);
    }
  }

  /** Only a node whose rank is the context itself prints differently one context tighter. */
  lemma PrintTighter(show: FloatPrinter, e: Expr, ctx: nat, cons: bool, k: Stream)
    requires ctx > 0 && Rank(e) != ctx
    ensures Print(show, e, ctx, cons, k) == Print(show, e, ctx - 1, cons, k)
    ensures Wrapped(e, ctx, cons) == Wrapped(e, ctx - 1, cons)
  {
    hide PrintBare;
  }

  lemma LevelZero(m: Mode, c: Cursor, cons: bool)
    ensures ParseBinary(m, c, cons, 0) == ParseUnary(m, c, cons)
  {
    hide ParseUnary;
  }

  /** The round trip in any context. */
  lemma {:induction false} Whole(m: Mode, show: FloatPrinter, c: Cursor, cons: bool, e: Expr, ctx: nat, k: Stream)
    requires !m.spans && Producible(m, show, e) && ctx <= 8
    requires c.rest == Print(show, e, ctx, cons, k) && Stops(ctx, cons, k)
    ensures Yields(ParseAt(m, c, cons, ctx), e, k)
    decreases e, Wrapped(e, ctx, cons), 2 * ctx + 1, 1
  {
    hide ParsePostfix, ParseBinary, ParseAssignment, ParseUnary, ParseAt, Stops, Print, Producible;
    if ctx == 0 {
      WholePostfix(m, show, c, cons, e, k);
    } else if ctx == 1 {
      UnaryParses(m, show, c, cons, e, k);
    } else if ctx <= 7 {
      WholeBinary(m, show, c, cons, e, ctx - 1, k);
    } else {
      WholeLoose(m, show, c, cons, e, k);
    }
    ParseAtCases(m, c, cons, ctx);
  }

  lemma ParseAtCases(m: Mode, c: Cursor, cons: bool, ctx: nat)
    requires ctx <= 8
    ensures ctx == 0 ==> ParseAt(m, c, cons, ctx) == ParsePostfix(m, c, cons)
    ensures ctx == 1 ==> ParseAt(m, c, cons, ctx) == ParseUnary(m, c, cons)
    ensures 1 <= ctx <= 7 ==> ParseAt(m, c, cons, ctx) == ParseBinary(m, c, cons, ctx - 1)
    ensures ctx == 8 ==> ParseAt(m, c, cons, ctx) == ParseAssignment(m, c, cons)
  {
    hide ParsePostfix, ParseUnary, ParseAssignment;
    LevelZero(m, c, cons);
  }

  lemma {:induction false} WholePostfix(m: Mode, show: FloatPrinter, c: Cursor, cons: bool, e: Expr, k: Stream)
    requires !m.spans && Producible(m, show, e) && c.rest == Print(show, e, 0, cons, k) && Stops(0, cons, k)
    ensures Yields(ParsePostfix(m, c, cons), e, k)
    decreases e, Wrapped(e, 0, cons), 1, 0
  {
    hide ParsePostfix, ParsePostfixRest, Stops, Producible, Print;
    StopsTighter(0, 0, cons, k);
    var after := PostfixParses(m, show, c, cons, e, k);
    PostfixStops(m, after, Start(c), e);
  }

  lemma {:induction false} WholeBinary(m: Mode, show: FloatPrinter, c: Cursor, cons: bool, e: Expr, level: nat, k: Stream)
    requires !m.spans && Producible(m, show, e) && 1 <= level <= 6
    requires c.rest == Print(show, e, level + 1, cons, k) && Stops(level + 1, cons, k)
    ensures Yields(ParseBinary(m, c, cons, level), e, k)
    decreases e, Wrapped(e, level + 1, cons), 2 * (level + 1) + 1, 0
  {
    hide ParseBinary, ParseBinaryRest, Stops, Producible, Print;
    StopsTighter(level + 1, level, cons, k);
    var after := ChainParses(m, show, c, cons, e, level, k);
    OperatorStops(m, after, cons, level, Start(c), e);
  }

  lemma {:induction false} WholeLoose(m: Mode, show: FloatPrinter, c: Cursor, cons: bool, e: Expr, k: Stream)
    requires !m.spans && Producible(m, show, e) && c.rest == Print(show, e, 8, cons, k) && Stops(8, cons, k)
    ensures Yields(ParseAssignment(m, c, cons), e, k)
    decreases e, Wrapped(e, 8, cons), 17, 0
  {
    hide ParseBinary, ParseAssignment, Stops, Producible, Print, PrintBare;
    if e.Assignment? {
      AssignmentParses(m, show, c, cons, e, k);
    } else {
      PrintTighter(show, e, 8, cons, k);
      StopsTighter(8, 7, cons, k);
      WholeBinary(m, show, c, cons, e, 6, k);
      AssignmentPasses(m, c, cons, e, ParseBinary(m, c, cons, 6).cursor);
    }
  }

  lemma OperandProducible(m: Mode, show: FloatPrinter, e: Expr)
    requires e.Unary? && Producible(m, show, e)
    ensures Producible(m, show, e.operand)
  {
    assert e.operand == Parts(e)[0];
  }

  lemma PrintedUnary(show: FloatPrinter, e: Expr, cons: bool, k: Stream)
    requires e.Unary?
    ensures Print(show, e, 1, cons, k) == Put(if e.unary.Not? then Bang else Minus, "", Print(show, e.operand, 1, cons, k))
  {
  }

  lemma {:induction false} UnaryParses(m: Mode, show: FloatPrinter, c: Cursor, cons: bool, e: Expr, k: Stream)
    requires !m.spans && Producible(m, show, e) && c.rest == Print(show, e, 1, cons, k) && Stops(1, cons, k)
    ensures Yields(ParseUnary(m, c, cons), e, k)
    decreases e, Wrapped(e, 1, cons), 2, 0
  {
    hide ParsePostfix, ParseBinary, ParseUnary, Stops, Producible, PrintBare;
    StopsTighter(1, 0, cons, k);
    if e.Unary? {
      OperandProducible(m, show, e);
      var printed := Print(show, e.operand, 1, cons, k);
      PrintedUnary(show, e, cons, k);
      hide Put, Print;
      PutFacts(c, if e.unary.Not? then Bang else Minus, "", printed);
      Whole(m, show, c.Next(), cons, e.operand, 1, k);
      LevelZero(m, c.Next(), cons);
      hide Cursor.Next, Cursor.Peek, Cursor.Starts, Stream.Starts;
      UnaryStep(m, c, cons, e.unary, e.operand, ParseUnary(m, c.Next(), cons).cursor);
    } else {
      PrintOpens(m, show, e, 1, cons, k);
      PrintTighter(show, e, 1, cons, k);
      UnaryPasses(m, c, cons);
      hide Print;
      Whole(m, show, c, cons, e, 0, k);
    }
  }

  /** Assignment targets bind tightly, so they print the same in any context. */
  lemma TargetPrints(show: FloatPrinter, target: Expr, cons: bool, k: Stream)
    requires target.Identifier? || target.Property? || target.Index?
    ensures Print(show, target, 0, cons, k) == Print(show, target, 7, cons, k)
    ensures Assignable(target)
  {
    hide PrintBare;
  }

  lemma EqualStops(value: Stream, cons: bool)
    ensures Stops(7, cons, Put(EqualSign, "=", value))
  {
  }

  lemma {:induction false} AssignmentParses(m: Mode, show: FloatPrinter, c: Cursor, cons: bool, e: Expr, k: Stream)
    requires !m.spans && Producible(m, show, e) && e.Assignment? && c.rest == Print(show, e, 8, cons, k) && Stops(8, cons, k)
    ensures Yields(ParseAssignment(m, c, cons), e, k)
    decreases e, 0, 2, 0
  {
    PartsProducible(m, show, e);
    assert e.target == Parts(e)[0] && e.value == Parts(e)[1];
    hide ParseBinary, ParseAssignment, Producible, Stops, PrintBare;
    var value := Print(show, e.value, 8, cons, k);
    var behind := Put(EqualSign, "=", value);
    TargetPrints(show, e.target, cons, behind);
    EqualStops(value, cons);
    hide Put, Print, NeedsParens;
    Whole(m, show, c, cons, e.target, 7, behind);
    var next := ParseBinary(m, c, cons, 6).cursor;
    PutFacts(next, EqualSign, "=", value);
    Whole(m, show, next.Next(), cons, e.value, 8, k);
    hide Cursor.Next, Cursor.Peek, Cursor.Starts, Stream.Starts;
    AssignmentStep(m, c, cons, e.target, next, e.value, ParseAssignment(m, next.Next(), cons).cursor);
  }

  /** A printed expression in front of the end of input parses to itself and uses everything. */
  lemma ParsePrint(m: Mode, show: FloatPrinter, e: Expr, eof: Token)
    requires !m.spans && Producible(m, show, e)
    ensures Yields(ParseAssignment(m, Cursor(None, Print(show, e, 8, true, End(eof))), true), e, End(eof))
  {
    EndStops(8, true, End(eof));
    Whole(m, show, Cursor(None, Print(show, e, 8, true, End(eof))), true, e, 8, End(eof));
  }
}
