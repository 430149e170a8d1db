/**
 * Parsing expressions with locations (src/parser/expression.rs). The parser
 * wraps every node it builds, unwraps before it decides what may be assigned to,
 * and otherwise never looks at a location. So keeping locations changes nothing
 * else: on every input the located tree erases to the tree parsed without
 * locations, the cursor ends at the same token, and an input that is rejected
 * is rejected with the same error. There is one lemma for each function of the
 * grammar.
 */
module Locating {
  import opened Wrappers
  import opened Source
  import opened Ast
  import opened Tokens
  import opened Literals
  import opened Grammar
  import opened Erasure

  ghost predicate Both(m: Mode, b: Mode) {
    m.spans && b == m.(spans := false)
  }

  predicate SameParse(r: Parse<Expr>, q: Parse<Expr>) {
    if r.Parsed? then q == Parsed(Erase(r.value), r.cursor) else q == r
  }

  predicate SameList(r: Parse<seq<Expr>>, q: Parse<seq<Expr>>) {
    if r.Parsed? then q.Parsed? && q.cursor == r.cursor && ErasedAll(r.value, q.value) else q == r
  }

  predicate ErasedFields(fields: seq<Field>, bare: seq<Field>) {
    |bare| == |fields| && forall i | 0 <= i < |fields| :: bare[i] == Field(fields[i].key, Erase(fields[i].value))
  }

  predicate SameFields(r: Parse<seq<Field>>, q: Parse<seq<Field>>) {
    if r.Parsed? then q.Parsed? && q.cursor == r.cursor && ErasedFields(r.value, q.value) else q == r
  }

  // ----- building nodes -----

  lemma LocateErased(m: Mode, e: Expr, start: Position, c: Cursor)
    ensures Erase(Locate(m, e, start, c)) == Erase(e)
  {
  }

  lemma CallErased(e: Expr, arguments: seq<Expr>, bare: seq<Expr>)
    requires ErasedAll(arguments, bare)
    ensures Erase(Call(e, arguments)) == Call(Erase(e), bare)
  {
    assert Erase(Call(e, arguments)).arguments == bare;
  }

  lemma ArrayErased(elements: seq<Expr>, bare: seq<Expr>)
    requires ErasedAll(elements, bare)
    ensures Erase(ArrayLit(elements)) == ArrayLit(bare)
  {
    assert Erase(ArrayLit(elements)).elements == bare;
  }

  lemma ObjectErased(fields: seq<Field>, bare: seq<Field>)
    requires ErasedFields(fields, bare)
    ensures Erase(ObjectLit(fields)) == ObjectLit(bare)
  {
    assert Erase(ObjectLit(fields)).fields == bare;
  }

  lemma ConstructErased(name: string, fields: seq<Field>, bare: seq<Field>)
    requires ErasedFields(fields, bare)
    ensures Erase(Construct(name, fields)) == Construct(name, bare)
  {
    assert Erase(Construct(name, fields)).fields == bare;
  }

  lemma EffectErased(op: EffectOp, operands: seq<Expr>, bare: seq<Expr>)
    requires ErasedAll(operands, bare)
    ensures Erase(Effect(op, operands)) == Effect(op, bare)
  {
    assert Erase(Effect(op, operands)).operands == bare;
  }

  lemma AssignableErased(target: Expr)
    ensures Assignable(Erase(target)) == Assignable(target)
  {
    EraseUnspanned(target);
  }

  lemma LiteralErased(m: Mode, b: Mode, token: Token)
    requires Both(m, b) && IsLiteral(token.kind)
    ensures LiteralOf(m, token) == LiteralOf(b, token)
    ensures LiteralOf(m, token).Ok? ==> Erase(LiteralOf(m, token).value) == LiteralOf(m, token).value
  {
    hide IntegerOf, StringOf, DurationOf;
  }

  // ----- the grammar -----

  lemma {:induction false} AssignmentSame(m: Mode, b: Mode, c: Cursor, cons: bool)
    requires Both(m, b)
    ensures SameParse(ParseAssignment(m, c, cons), ParseAssignment(b, c, cons))
    decreases c.Length(), 12
  {
    hide ParseSend, Assignable;
    SendSame(m, b, c, cons);
    var s := ParseSend(m, c, cons);
    if s.Failed? || !s.cursor.Starts(EqualSign) { return; }
    AssignableErased(s.value);
    if !Assignable(s.value) { return; }
    AssignmentSame(m, b, s.cursor.Next(), cons);
    var v := ParseAssignment(m, s.cursor.Next(), cons);
    if v.Parsed? {
      LocateErased(m, Assignment(s.value, v.value), Start(c), v.cursor);
    }
  }

  lemma {:induction false} SendSame(m: Mode, b: Mode, c: Cursor, cons: bool)
    requires Both(m, b)
    ensures SameParse(ParseSend(m, c, cons), ParseSend(b, c, cons))
    decreases c.Length(), 11
  {
    hide ParseBinary, ParseDestination, Erase;
    BinarySame(m, b, c, cons, 6);
    var s := ParseBinary(m, c, cons, 6);
    if s.Failed? || !s.cursor.Starts(SendWord) { return; }
    BinarySame(m, b, s.cursor.Next(), cons, 6);
    var d := ParseBinary(m, s.cursor.Next(), cons, 6);
    if d.Failed? { return; }
    DestinationSame(m, b, d.cursor, cons);
    var t := ParseDestination(m, d.cursor, cons);
    if t.Failed? || t.cursor.Starts(SendWord) { return; }
    var operands := [s.value, d.value] + (if t.value.Some? then [t.value.value] else []);
    var bare := [Erase(s.value), Erase(d.value)] + (if t.value.Some? then [Erase(t.value.value)] else []);
    EffectErased(Send, operands, bare);
    LocateErased(m, Effect(Send, operands), Start(c), t.cursor);
  }

  lemma {:induction false} DestinationSame(m: Mode, b: Mode, c: Cursor, cons: bool)
    requires Both(m, b)
    ensures var r, q := ParseDestination(m, c, cons), ParseDestination(b, c, cons);
            if r.Parsed?
            then q == Parsed(if r.value.Some? then Some(Erase(r.value.value)) else None, r.cursor)
            else q == r
    decreases c.Length(), 11
  {
    hide ParseBinary, Erase;
    if c.Starts(ToWord) {
      BinarySame(m, b, c.Next(), cons, 6);
    }
  }

  lemma {:induction false} BinarySame(m: Mode, b: Mode, c: Cursor, cons: bool, level: nat)
    requires Both(m, b) && level <= 6
    ensures SameParse(ParseBinary(m, c, cons, level), ParseBinary(b, c, cons, level))
    decreases c.Length(), 4 + level
  {
    hide ParseUnary, ParseBinaryRest, Erase;
    if level == 0 {
      UnarySame(m, b, c, cons);
    } else {
      BinarySame(m, b, c, cons, level - 1);
      var first := ParseBinary(m, c, cons, level - 1);
      if first.Parsed? {
        BinaryRestSame(m, b, first.cursor, cons, level, Start(c), first.value);
      }
    }
  }

  lemma {:induction false} BinaryRestSame(m: Mode, b: Mode, c: Cursor, cons: bool, level: nat, start: Position, left: Expr)
    requires Both(m, b) && 1 <= level <= 6
    ensures SameParse(ParseBinaryRest(m, c, cons, level, start, left), ParseBinaryRest(b, c, cons, level, start, Erase(left)))
    decreases c.Length(), 0
  {
    hide ParseBinary, OperatorAt;
    var op := NextOperator(c, level);
    if op.None? { return; }
    BinarySame(m, b, c.Next(), cons, level - 1);
    var right := ParseBinary(m, c.Next(), cons, level - 1);
    if right.Parsed? {
      var node := Binary(left, op.value, right.value);
      LocateErased(m, node, start, right.cursor);
      BinaryRestSame(m, b, right.cursor, cons, level, start, Locate(m, node, start, right.cursor));
    }
  }

  lemma {:induction false} UnarySame(m: Mode, b: Mode, c: Cursor, cons: bool)
    requires Both(m, b)
    ensures SameParse(ParseUnary(m, c, cons), ParseUnary(b, c, cons))
    decreases c.Length(), 3
  {
    hide ParsePostfix;
    if c.Starts(Bang) || c.Starts(Minus) {
      UnarySame(m, b, c.Next(), cons);
      var operand := ParseUnary(m, c.Next(), cons);
      if operand.Parsed? {
        LocateErased(m, Unary(if c.Starts(Bang) then Not else Negate, operand.value), Start(c), operand.cursor);
      }
    } else {
      PostfixSame(m, b, c, cons);
    }
  }

  lemma {:induction false} PostfixSame(m: Mode, b: Mode, c: Cursor, cons: bool)
    requires Both(m, b)
    ensures SameParse(ParsePostfix(m, c, cons), ParsePostfix(b, c, cons))
    decreases c.Length(), 2
  {
    hide ParsePrimary, ParsePostfixRest, Erase;
    PrimarySame(m, b, c, cons);
    var e := ParsePrimary(m, c, cons);
    if e.Parsed? {
      PostfixRestSame(m, b, e.cursor, Start(c), e.value);
    }
  }

  lemma {:induction false} PostfixRestSame(m: Mode, b: Mode, c: Cursor, start: Position, e: Expr)
    requires Both(m, b)
    ensures SameParse(ParsePostfixRest(m, c, start, e), ParsePostfixRest(b, c, start, Erase(e)))
    decreases c.Length(), 2
  {
    hide ParsePostfixOne, Erase;
    PostfixOneSame(m, b, c, e);
    var one := ParsePostfixOne(m, c, e);
    if one.Parsed? && one.value.Some? {
      LocateErased(m, one.value.value, start, one.cursor);
      PostfixRestSame(m, b, one.cursor, start, Locate(m, one.value.value, start, one.cursor));
    }
  }

  predicate SameSuffix(r: Parse<Option<Expr>>, q: Parse<Option<Expr>>) {
    if r.Parsed? then q == Parsed(if r.value.Some? then Some(Erase(r.value.value)) else None, r.cursor) else q == r
  }

  lemma {:induction false} PostfixOneSame(m: Mode, b: Mode, c: Cursor, e: Expr)
    requires Both(m, b)
    ensures SameSuffix(ParsePostfixOne(m, c, e), ParsePostfixOne(b, c, Erase(e)))
    decreases c.Length(), 1, 1
  {
    hide ParseList, ParseAssignment, Erase;
    if c.Starts(LeftParen) {
      CallSame(m, b, c, e);
    } else if c.Starts(LeftBracket) {
      IndexSame(m, b, c, e);
    } else if c.Starts(ReceiveWord) {
      EffectErased(Receive, [e], [Erase(e)]);
    } else if c.Starts(Dot) {
      PropertySame(m, b, c, e);
    }
  }

  lemma {:induction false} CallSame(m: Mode, b: Mode, c: Cursor, e: Expr)
    requires Both(m, b) && c.Starts(LeftParen)
    ensures SameSuffix(ParsePostfixOne(m, c, e), ParsePostfixOne(b, c, Erase(e)))
    decreases c.Length(), 1, 0
  {
    hide ParseList, ParseAssignment, Erase;
    ListSame(m, b, c.Next(), RightParen);
    var arguments := ParseList(m, c.Next(), RightParen);
    if arguments.Parsed? {
      CallErased(e, arguments.value, ParseList(b, c.Next(), RightParen).value);
    }
  }

  lemma {:induction false} IndexSame(m: Mode, b: Mode, c: Cursor, e: Expr)
    requires Both(m, b) && c.Starts(LeftBracket)
    ensures SameSuffix(ParsePostfixOne(m, c, e), ParsePostfixOne(b, c, Erase(e)))
    decreases c.Length(), 1, 0
  {
    hide ParseList, ParseAssignment;
    AssignmentSame(m, b, c.Next(), true);
    var index := ParseAssignment(m, c.Next(), true);
    if index.Parsed? {
      assert Erase(Index(e, index.value)) == Index(Erase(e), Erase(index.value));
    }
  }

  lemma PropertySame(m: Mode, b: Mode, c: Cursor, e: Expr)
    requires c.Starts(Dot)
    ensures SameSuffix(ParsePostfixOne(m, c, e), ParsePostfixOne(b, c, Erase(e)))
  {
    hide ParseList, ParseAssignment, Erase, Consume, Cursor.Next;
    var name := Consume(c.Next(), IdentifierToken);
    if name.Parsed? {
      PropertyErased(e, name.value.lexeme);
    }
  }

  lemma PropertyErased(e: Expr, name: string)
    ensures Erase(Property(e, name)) == Property(Erase(e), name)
  {
  }

  lemma {:induction false} ListSame(m: Mode, b: Mode, c: Cursor, closing: TokenKind)
    requires Both(m, b)
    ensures SameList(ParseList(m, c, closing), ParseList(b, c, closing))
    decreases c.Length(), 14
  {
    hide ParseItems, Erase;
    if !c.Starts(closing) {
      ItemsSame(m, b, c, closing, [], []);
    }
  }

  lemma OneMoreErased(done: seq<Expr>, bare: seq<Expr>, e: Expr)
    requires ErasedAll(done, bare)
    ensures ErasedAll(done + [e], bare + [Erase(e)])
  {
    hide Erase;
  }

  /** One element of a list, and then the rest or its end. */
  lemma ItemsStep(m: Mode, c: Cursor, closing: TokenKind, done: seq<Expr>)
    ensures var e := ParseAssignment(m, c, true);
            ParseItems(m, c, closing, done) ==
              if e.Failed? then Failed(e.error)
              else if e.cursor.Starts(Comma) && !e.cursor.Next().Starts(closing)
              then ParseItems(m, e.cursor.Next(), closing, done + [e.value])
              else
                var end := Consume(if e.cursor.Starts(Comma) then e.cursor.Next() else e.cursor, closing);
                if end.Failed? then Failed(end.error) else Parsed(done + [e.value], end.cursor)
  {
    hide ParseAssignment, Consume;
  }

  lemma {:induction false} ItemsSame(m: Mode, b: Mode, c: Cursor, closing: TokenKind, done: seq<Expr>, bare: seq<Expr>)
    requires Both(m, b) && ErasedAll(done, bare)
    ensures SameList(ParseItems(m, c, closing, done), ParseItems(b, c, closing, bare))
    decreases c.Length(), 13
  {
    hide ParseAssignment, ParseItems, Erase, ErasedAll, Consume, Both;
    AssignmentSame(m, b, c, true);
    ItemsStep(m, c, closing, done);
    ItemsStep(b, c, closing, bare);
    var e := ParseAssignment(m, c, true);
    if e.Parsed? {
      OneMoreErased(done, bare, e.value);
    }
    if e.Parsed? && e.cursor.Starts(Comma) && !e.cursor.Next().Starts(closing) {
      ItemsSame(m, b, e.cursor.Next(), closing, done + [e.value], bare + [Erase(e.value)]);
    }
  }

  lemma {:induction false} FieldsSame(m: Mode, b: Mode, c: Cursor)
    requires Both(m, b)
    ensures SameFields(ParseFields(m, c), ParseFields(b, c))
    decreases c.Length(), 15
  {
    hide ParseFieldItems, Erase;
    if !c.Starts(RightBrace) {
      FieldItemsSame(m, b, c, [], []);
    }
  }

  lemma {:induction false} FieldSame(m: Mode, b: Mode, c: Cursor)
    requires Both(m, b)
    ensures var r, q := ParseField(m, c), ParseField(b, c);
            if r.Parsed? then q == Parsed(Field(r.value.key, Erase(r.value.value)), r.cursor) else q == r
    decreases c.Length(), 13
  {
    hide ParseAssignment, Erase, KeyOfToken;
    if KeyOfToken(c.Peek()).Ok? && Consume(c.Next(), Colon).Parsed? {
      AssignmentSame(m, b, Consume(c.Next(), Colon).cursor, true);
    }
  }

  lemma {:induction false} FieldItemsSame(m: Mode, b: Mode, c: Cursor, done: seq<Field>, bare: seq<Field>)
    requires Both(m, b) && ErasedFields(done, bare)
    ensures SameFields(ParseFieldItems(m, c, done), ParseFieldItems(b, c, bare))
    decreases c.Length(), 14
  {
    hide ParseField, Erase;
    FieldSame(m, b, c);
    var field := ParseField(m, c);
    if field.Parsed? && field.cursor.Starts(Comma) && !field.cursor.Next().Starts(RightBrace) {
      FieldItemsSame(m, b, field.cursor.Next(), done + [field.value],
                     bare + [Field(field.value.key, Erase(field.value.value))]);
    }
  }

  lemma {:induction false} PrimarySame(m: Mode, b: Mode, c: Cursor, cons: bool)
    requires Both(m, b)
    ensures SameParse(ParsePrimary(m, c, cons), ParsePrimary(b, c, cons))
    decreases c.Length(), 1
  {
    hide ParsePrimaryInner, Erase;
    PrimaryInnerSame(m, b, c, cons);
    var e := ParsePrimaryInner(m, c, cons);
    if e.Parsed? {
      LocateErased(m, e.value, Start(c), e.cursor);
    }
  }

  lemma {:induction false} PrimaryInnerSame(m: Mode, b: Mode, c: Cursor, cons: bool)
    requires Both(m, b)
    ensures SameParse(ParsePrimaryInner(m, c, cons), ParsePrimaryInner(b, c, cons))
    decreases c.Length(), 0
  {
    if c.rest.End? { return; }
    var token, next := c.rest.head, c.Next();
    hide ParseList, ParseAssignment, ParseFields, ParseObject, ParseConnection, ParseRequest, LiteralOf;
    if IsLiteral(token.kind) {
      LiteralErased(m, b, token);
    } else if token.kind.TransportWord? {
      ConnectionSame(m, b, next, token.kind.transport);
    } else if token.kind.VerbWord? {
      RequestSame(m, b, next, token.kind.verb);
    } else if token.kind.IdentifierToken? {
      if cons && next.Starts(LeftBrace) {
        FieldsSame(m, b, next.Next());
        var fields := ParseFields(m, next.Next());
        if fields.Parsed? {
          ConstructErased(token.lexeme, fields.value, ParseFields(b, next.Next()).value);
        }
      }
    } else if token.kind.LeftParen? {
      AssignmentSame(m, b, next, true);
    } else if token.kind.LeftBracket? {
      ListSame(m, b, next, RightBracket);
      var elements := ParseList(m, next, RightBracket);
      if elements.Parsed? {
        ArrayErased(elements.value, ParseList(b, next, RightBracket).value);
      }
    } else if token.kind.LeftBrace? {
      ObjectSame(m, b, next);
    }
  }

  lemma {:induction false} ObjectSame(m: Mode, b: Mode, c: Cursor)
    requires Both(m, b)
    ensures SameParse(ParseObject(m, c), ParseObject(b, c))
    decreases c.Length(), 16
  {
    hide ParseFields, Erase;
    FieldsSame(m, b, c);
    var fields := ParseFields(m, c);
    if fields.Parsed? {
      var start := if c.previous.Some? then c.previous.value.span.start else Start(c);
      ObjectErased(fields.value, ParseFields(b, c).value);
      LocateErased(m, ObjectLit(fields.value), start, fields.cursor);
    }
  }

  lemma {:induction false} ConnectionSame(m: Mode, b: Mode, c: Cursor, transport: Transport)
    requires Both(m, b)
    ensures SameParse(ParseConnection(m, c, transport), ParseConnection(b, c, transport))
    decreases c.Length(), 13
  {
    hide ParseBinary, Erase;
    BinarySame(m, b, c, false, 6);
    var address := ParseBinary(m, c, false, 6);
    if address.Parsed? {
      forall protocol
        ensures Erase(Effect(Connect(transport, protocol), [address.value])) == Effect(Connect(transport, protocol), [Erase(address.value)])
      {
        EffectErased(Connect(transport, protocol), [address.value], [Erase(address.value)]);
      }
    }
  }

  lemma {:induction false} RequestSame(m: Mode, b: Mode, c: Cursor, verb: HttpMethod)
    requires Both(m, b)
    ensures SameParse(ParseRequest(m, c, verb), ParseRequest(b, c, verb))
    decreases c.Length(), 13
  {
    hide ParseAssignment, ParseObject, Erase;
    AssignmentSame(m, b, c, false);
    var url := ParseAssignment(m, c, false);
    if url.Failed? { return; }
    EffectErased(Request(verb), [url.value], [Erase(url.value)]);
    if url.cursor.Starts(LeftBrace) {
      ObjectSame(m, b, url.cursor.Next());
      var config := ParseObject(m, url.cursor.Next());
      if config.Parsed? {
        EffectErased(Request(verb), [url.value, config.value], [Erase(url.value), Erase(config.value)]);
      }
    }
  }
}
