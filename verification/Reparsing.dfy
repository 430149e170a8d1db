/** Every tree the parser builds without locations can be printed and parsed back. */
module Reparsing {
  import opened Wrappers
  import opened Source
  import opened Ast
  import opened Tokens
  import opened Literals
  import opened Grammar
  import opened Printing
  import opened RoundTrip

  /** Floats that were read can be written so that they are read again as the same float. */
  ghost predicate Readable(m: Mode, show: FloatPrinter) {
    forall text :: m.floats(text).Some? && m.floats(text).value.Finite? ==>
      m.floats(show(m.floats(text).value)) == m.floats(text)
  }

  ghost predicate Good(m: Mode, show: FloatPrinter, r: Parse<Expr>) {
    r.Parsed? ==> Producible(m, show, r.value)
  }

  ghost predicate GoodList(m: Mode, show: FloatPrinter, r: Parse<seq<Expr>>) {
    r.Parsed? ==> AllProducible(m, show, r.value)
  }

  ghost predicate AllProducible(m: Mode, show: FloatPrinter, es: seq<Expr>) {
    forall i | 0 <= i < |es| :: Producible(m, show, es[i])
  }

  ghost predicate FieldsProducible(m: Mode, show: FloatPrinter, fields: seq<Field>) {
    forall i | 0 <= i < |fields| :: Producible(m, show, fields[i].value)
  }

  lemma NodeProducible(m: Mode, show: FloatPrinter, e: Expr)
    requires Shaped(e) && !e.FloatLit? && AllProducible(m, show, Parts(e))
    ensures Producible(m, show, e)
  {
  }

  lemma FieldParts(m: Mode, show: FloatPrinter, fields: seq<Field>)
    requires FieldsProducible(m, show, fields)
    ensures Producible(m, show, ObjectLit(fields)) && forall name :: Producible(m, show, Construct(name, fields))
  {
    hide Producible;
    NodeProducible(m, show, ObjectLit(fields));
    forall name
      ensures Producible(m, show, Construct(name, fields))
    {
      NodeProducible(m, show, Construct(name, fields));
    }
  }

  lemma BareTarget(target: Expr)
    requires !target.Located? && Assignable(target)
    ensures target.Identifier? || target.Property? || target.Index?
  {
  }

  lemma {:induction false} AssignmentGood(m: Mode, show: FloatPrinter, c: Cursor, cons: bool)
    requires !m.spans && Readable(m, show)
    ensures Good(m, show, ParseAssignment(m, c, cons))
    decreases c.Length(), 12
  {
    hide Readable, Producible, ParseSend;
    SendGood(m, show, c, cons);
    var s := ParseSend(m, c, cons);
    if s.Failed? || !s.cursor.Starts(EqualSign) || !Assignable(s.value) { return; }
    AssignmentGood(m, show, s.cursor.Next(), cons);
    var v := ParseAssignment(m, s.cursor.Next(), cons);
    if v.Parsed? {
      ProducibleIsBare(m, show, s.value);
      BareTarget(s.value);
      NodeProducible(m, show, Assignment(s.value, v.value));
    }
  }

  lemma ProducibleIsBare(m: Mode, show: FloatPrinter, e: Expr)
    requires Producible(m, show, e)
    ensures !e.Located?
  {
  }

  lemma SendNodes(m: Mode, show: FloatPrinter, connection: Expr, data: Expr)
    requires Producible(m, show, connection) && Producible(m, show, data)
    ensures Producible(m, show, Effect(Send, [connection, data] + []))
    ensures forall to | Producible(m, show, to) :: Producible(m, show, Effect(Send, [connection, data] + [to]))
  {
    hide Producible;
    NodeProducible(m, show, Effect(Send, [connection, data] + []));
    forall to | Producible(m, show, to)
      ensures Producible(m, show, Effect(Send, [connection, data] + [to]))
    {
      NodeProducible(m, show, Effect(Send, [connection, data] + [to]));
    }
  }

  lemma {:induction false} SendGood(m: Mode, show: FloatPrinter, c: Cursor, cons: bool)
    requires !m.spans && Readable(m, show)
    ensures Good(m, show, ParseSend(m, c, cons))
    decreases c.Length(), 11
  {
    hide Readable, Producible, ParseBinary;
    BinaryGood(m, show, c, cons, 6);
    var s := ParseBinary(m, c, cons, 6);
    if s.Failed? || !s.cursor.Starts(SendWord) { return; }
    BinaryGood(m, show, s.cursor.Next(), cons, 6);
    var d := ParseBinary(m, s.cursor.Next(), cons, 6);
    if d.Failed? { return; }
    SendNodes(m, show, s.value, d.value);
    if d.cursor.Starts(ToWord) {
      BinaryGood(m, show, d.cursor.Next(), cons, 6);
    }
  }

  lemma {:induction false} BinaryGood(m: Mode, show: FloatPrinter, c: Cursor, cons: bool, level: nat)
    requires !m.spans && Readable(m, show) && level <= 6
    ensures Good(m, show, ParseBinary(m, c, cons, level))
    decreases c.Length(), 4 + level
  {
    hide Readable, Producible, ParseUnary, ParseBinaryRest;
    if level == 0 {
      UnaryGood(m, show, c, cons);
    } else {
      BinaryGood(m, show, c, cons, level - 1);
      var first := ParseBinary(m, c, cons, level - 1);
      if first.Parsed? {
        BinaryRestGood(m, show, first.cursor, cons, level, Start(c), first.value);
      }
    }
  }

  lemma {:induction false} BinaryRestGood(m: Mode, show: FloatPrinter, c: Cursor, cons: bool, level: nat, start: Position, left: Expr)
    requires !m.spans && Readable(m, show) && 1 <= level <= 6 && Producible(m, show, left)
    ensures Good(m, show, ParseBinaryRest(m, c, cons, level, start, left))
    decreases c.Length(), 0
  {
    hide Readable, Producible, ParseBinary;
    var op := NextOperator(c, level);
    if op.None? { return; }
    BinaryGood(m, show, c.Next(), cons, level - 1);
    var right := ParseBinary(m, c.Next(), cons, level - 1);
    if right.Parsed? {
      NodeProducible(m, show, Binary(left, op.value, right.value));
      BinaryRestGood(m, show, right.cursor, cons, level, start, Binary(left, op.value, right.value));
    }
  }

  lemma {:induction false} UnaryGood(m: Mode, show: FloatPrinter, c: Cursor, cons: bool)
    requires !m.spans && Readable(m, show)
    ensures Good(m, show, ParseUnary(m, c, cons))
    decreases c.Length(), 3
  {
    hide Readable, Producible, ParsePostfix;
    if c.Starts(Bang) || c.Starts(Minus) {
      UnaryGood(m, show, c.Next(), cons);
      var operand := ParseUnary(m, c.Next(), cons);
      if operand.Parsed? {
        NodeProducible(m, show, Unary(if c.Starts(Bang) then Not else Negate, operand.value));
      }
    } else {
      PostfixGood(m, show, c, cons);
    }
  }

  lemma {:induction false} PostfixGood(m: Mode, show: FloatPrinter, c: Cursor, cons: bool)
    requires !m.spans && Readable(m, show)
    ensures Good(m, show, ParsePostfix(m, c, cons))
    decreases c.Length(), 2
  {
    hide Readable, Producible, ParsePrimaryInner, ParsePostfixRest;
    PrimaryGood(m, show, c, cons);
    var e := ParsePrimaryInner(m, c, cons);
    if e.Parsed? {
      PostfixRestGood(m, show, e.cursor, Start(c), e.value);
    }
  }

  lemma {:induction false} PostfixRestGood(m: Mode, show: FloatPrinter, c: Cursor, start: Position, e: Expr)
    requires !m.spans && Readable(m, show) && Producible(m, show, e)
    ensures Good(m, show, ParsePostfixRest(m, c, start, e))
    decreases c.Length(), 2
  {
    hide Readable, Producible, ParsePostfixOne;
    PostfixOneGood(m, show, c, e);
    var one := ParsePostfixOne(m, c, e);
    if one.Parsed? && one.value.Some? {
      PostfixRestGood(m, show, one.cursor, start, one.value.value);
    }
  }

  /** A producible expression with something behind it. */
  lemma PostfixNodes(m: Mode, show: FloatPrinter, e: Expr)
    requires Producible(m, show, e)
    ensures forall arguments | AllProducible(m, show, arguments) :: Producible(m, show, Call(e, arguments))
    ensures forall index | Producible(m, show, index) :: Producible(m, show, Index(e, index))
    ensures forall name :: Producible(m, show, Property(e, name))
    ensures Producible(m, show, Effect(Receive, [e]))
  {
    hide Producible;
    forall arguments | AllProducible(m, show, arguments)
      ensures Producible(m, show, Call(e, arguments))
    {
      NodeProducible(m, show, Call(e, arguments));
    }
    forall index | Producible(m, show, index)
      ensures Producible(m, show, Index(e, index))
    {
      NodeProducible(m, show, Index(e, index));
    }
    forall name
      ensures Producible(m, show, Property(e, name))
    {
      NodeProducible(m, show, Property(e, name));
    }
    NodeProducible(m, show, Effect(Receive, [e]));
  }

  lemma {:induction false} PostfixOneGood(m: Mode, show: FloatPrinter, c: Cursor, e: Expr)
    requires !m.spans && Readable(m, show) && Producible(m, show, e)
    ensures var one := ParsePostfixOne(m, c, e); one.Parsed? && one.value.Some? ==> Producible(m, show, one.value.value)
    decreases c.Length(), 1
  {
    hide Readable, Producible, AllProducible, ParseList, ParseAssignment, Cursor.Length;
    PostfixNodes(m, show, e);
    if c.Starts(LeftParen) {
      ListGood(m, show, c.Next(), RightParen);
    } else if c.Starts(LeftBracket) {
      AssignmentGood(m, show, c.Next(), true);
    }
  }

  lemma {:induction false} ListGood(m: Mode, show: FloatPrinter, c: Cursor, closing: TokenKind)
    requires !m.spans && Readable(m, show)
    ensures GoodList(m, show, ParseList(m, c, closing))
    decreases c.Length(), 14
  {
    hide Readable, Producible, ParseItems;
    if !c.Starts(closing) {
      ItemsGood(m, show, c, closing, []);
    }
  }

  lemma {:induction false} ItemsGood(m: Mode, show: FloatPrinter, c: Cursor, closing: TokenKind, done: seq<Expr>)
    requires !m.spans && Readable(m, show) && AllProducible(m, show, done)
    ensures GoodList(m, show, ParseItems(m, c, closing, done))
    decreases c.Length(), 13
  {
    hide Readable, Producible, ParseAssignment;
    AssignmentGood(m, show, c, true);
    var e := ParseAssignment(m, c, true);
    if e.Parsed? && e.cursor.Starts(Comma) && !e.cursor.Next().Starts(closing) {
      ItemsGood(m, show, e.cursor.Next(), closing, done + [e.value]);
    }
  }

  lemma {:induction false} FieldsGood(m: Mode, show: FloatPrinter, c: Cursor)
    requires !m.spans && Readable(m, show)
    ensures ParseFields(m, c).Parsed? ==> FieldsProducible(m, show, ParseFields(m, c).value)
    decreases c.Length(), 15
  {
    hide Readable, Producible, ParseFieldItems;
    if !c.Starts(RightBrace) {
      FieldItemsGood(m, show, c, []);
    }
  }

  lemma {:induction false} FieldGood(m: Mode, show: FloatPrinter, c: Cursor)
    requires !m.spans && Readable(m, show)
    ensures ParseField(m, c).Parsed? ==> Producible(m, show, ParseField(m, c).value.value)
    decreases c.Length(), 13
  {
    hide Readable, Producible, ParseAssignment, KeyOfToken;
    if KeyOfToken(c.Peek()).Ok? && Consume(c.Next(), Colon).Parsed? {
      AssignmentGood(m, show, Consume(c.Next(), Colon).cursor, true);
    }
  }

  lemma {:induction false} FieldItemsGood(m: Mode, show: FloatPrinter, c: Cursor, done: seq<Field>)
    requires !m.spans && Readable(m, show) && FieldsProducible(m, show, done)
    ensures ParseFieldItems(m, c, done).Parsed? ==> FieldsProducible(m, show, ParseFieldItems(m, c, done).value)
    decreases c.Length(), 14
  {
    hide Readable, Producible, ParseField;
    FieldGood(m, show, c);
    var field := ParseField(m, c);
    if field.Parsed? && field.cursor.Starts(Comma) && !field.cursor.Next().Starts(RightBrace) {
      FieldItemsGood(m, show, field.cursor.Next(), done + [field.value]);
    }
  }

  lemma LiteralGood(m: Mode, show: FloatPrinter, token: Token)
    requires Readable(m, show) && IsLiteral(token.kind)
    ensures LiteralOf(m, token).Ok? ==> Producible(m, show, LiteralOf(m, token).value)
  {
    hide IntegerOf, StringOf, DurationOf;
  }

  lemma {:induction false} PrimaryGood(m: Mode, show: FloatPrinter, c: Cursor, cons: bool)
    requires !m.spans && Readable(m, show)
    ensures Good(m, show, ParsePrimaryInner(m, c, cons))
    decreases c.Length(), 0
  {
    if c.rest.End? { return; }
    var token, next := c.rest.head, c.Next();
    hide Readable, Producible, ParseList, ParseAssignment, ParseFields, ParseObject, ParseConnection, ParseRequest, LiteralOf;
    if IsLiteral(token.kind) {
      LiteralGood(m, show, token);
    } else if token.kind.TransportWord? {
      ConnectionGood(m, show, next, token.kind.transport);
    } else if token.kind.VerbWord? {
      RequestGood(m, show, next, token.kind.verb);
    } else if token.kind.IdentifierToken? {
      NodeProducible(m, show, Identifier(token.lexeme));
      if cons && next.Starts(LeftBrace) {
        FieldsGood(m, show, next.Next());
        var fields := ParseFields(m, next.Next());
        if fields.Parsed? {
          FieldParts(m, show, fields.value);
        }
      }
    } else if token.kind.LeftParen? {
      AssignmentGood(m, show, next, true);
    } else if token.kind.LeftBracket? {
      ListGood(m, show, next, RightBracket);
      var elements := ParseList(m, next, RightBracket);
      if elements.Parsed? {
        NodeProducible(m, show, ArrayLit(elements.value));
      }
    } else if token.kind.LeftBrace? {
      ObjectGood(m, show, next);
    }
  }

  lemma {:induction false} ObjectGood(m: Mode, show: FloatPrinter, c: Cursor)
    requires !m.spans && Readable(m, show)
    ensures Good(m, show, ParseObject(m, c)) && (ParseObject(m, c).Parsed? ==> ParseObject(m, c).value.ObjectLit?)
    decreases c.Length(), 16
  {
    hide Readable, Producible, ParseFields;
    FieldsGood(m, show, c);
    var fields := ParseFields(m, c);
    if fields.Parsed? {
      FieldParts(m, show, fields.value);
    }
  }

  lemma {:induction false} ConnectionGood(m: Mode, show: FloatPrinter, c: Cursor, transport: Transport)
    requires !m.spans && Readable(m, show)
    ensures Good(m, show, ParseConnection(m, c, transport))
    decreases c.Length(), 13
  {
    hide Readable, Producible, ParseBinary;
    BinaryGood(m, show, c, false, 6);
    var address := ParseBinary(m, c, false, 6);
    if address.Parsed? {
      forall protocol
        ensures Producible(m, show, Effect(Connect(transport, protocol), [address.value]))
      {
        NodeProducible(m, show, Effect(Connect(transport, protocol), [address.value]));
      }
    }
  }

  lemma {:induction false} RequestGood(m: Mode, show: FloatPrinter, c: Cursor, verb: HttpMethod)
    requires !m.spans && Readable(m, show)
    ensures Good(m, show, ParseRequest(m, c, verb))
    decreases c.Length(), 13
  {
    hide Readable, Producible, ParseAssignment, ParseObject;
    AssignmentGood(m, show, c, false);
    var url := ParseAssignment(m, c, false);
    if url.Failed? { return; }
    NodeProducible(m, show, Effect(Request(verb), [url.value]));
    if url.cursor.Starts(LeftBrace) {
      ObjectGood(m, show, url.cursor.Next());
      var config := ParseObject(m, url.cursor.Next());
      if config.Parsed? {
        NodeProducible(m, show, Effect(Request(verb), [url.value, config.value]));
      }
    }
  }

  /** Whatever was parsed, from whatever tokens, can be printed and parsed back to the same tree. */
  lemma ReparsesToItself(m: Mode, show: FloatPrinter, c: Cursor, cons: bool, eof: Token)
    requires !m.spans && Readable(m, show) && ParseAssignment(m, c, cons).Parsed?
    ensures var e := ParseAssignment(m, c, cons).value;
            Yields(ParseAssignment(m, Cursor(None, Print(show, e, 8, true, End(eof))), true), e, End(eof))
  {
    hide ParseAssignment, Print, Producible, Readable;
    AssignmentGood(m, show, c, cons);
    ParsePrint(m, show, ParseAssignment(m, c, cons).value, eof);
  }
}
