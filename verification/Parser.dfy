/**
 * The parser as the code writes it: a cursor over a token list that ends with
 * its only end-of-input token, and a flag that says whether a name may start a
 * constructor (src/parser). Every method is proved to build what the grammar
 * specifies, to stay inside the list, and to leave the flag as it found it
 * whether it succeeds or fails.
 */
module Parsing {
  import opened Wrappers
  import opened Source
  import opened Ast
  import opened Tokens
  import opened Literals
  import opened Grammar
  import opened Declarations

  /** A list the parser accepts: nonempty, with the end of input at its end and nowhere else. */
  predicate Terminated(tokens: seq<Token>) {
    && tokens != []
    && tokens[|tokens| - 1].kind == Eof
    && forall i | 0 <= i < |tokens| - 1 :: tokens[i].kind != Eof
  }

  predicate Agrees<T(==)>(r: Result<T, ParseError>, spec: Parse<T>, now: Cursor) {
    if spec.Parsed? then r == Ok(spec.value) && now == spec.cursor else r == Err(spec.error)
  }

  /** The cursor in front of token `current`. */
  ghost predicate StandsAt(tokens: seq<Token>, current: nat, c: Cursor) {
    && Terminated(tokens) && current < |tokens|
    && c == Cursor(if current > 0 then Some(tokens[current - 1]) else None, StreamOf(tokens, current))
  }

  method IsTerminated(tokens: seq<Token>) returns (ok: bool)
    ensures ok <==> Terminated(tokens)
  {
    if tokens == [] || tokens[|tokens| - 1].kind != Eof {
      return false;
    }
    for i := 0 to |tokens| - 1
      invariant forall j | 0 <= j < i :: tokens[j].kind != Eof
    {
      if tokens[i].kind == Eof {
        return false;
      }
    }
    return true;
  }

  class Parser {
    const tokens: seq<Token>
    const spans: bool
    const floats: string -> Option<Float>
    var current: nat
    var constructors: bool
    /** Where the cursor stands, as the grammar sees it. */
    ghost var at: Cursor

    ghost predicate Valid()
      reads this
    {
      StandsAt(tokens, current, at)
    }

    ghost function M(): Mode {
      Mode(spans, floats)
    }

    constructor (tokens: seq<Token>, spans: bool, floats: string -> Option<Float>)
      requires Terminated(tokens)
      ensures Valid() && this.tokens == tokens && M() == Mode(spans, floats) && constructors
      ensures at == Cursor(None, StreamOf(tokens, 0))
    {
      this.tokens, this.spans, this.floats := tokens, spans, floats;
      current, constructors := 0, true;
      at := Cursor(None, StreamOf(tokens, 0));
    }

    // ----- the cursor -----

    method Peek() returns (token: Token)
      requires Valid()
      ensures token == at.Peek() && (token.kind == Eof <==> at.rest.End?)
    {
      token := tokens[current];
    }

    method PeekKind() returns (kind: TokenKind)
      requires Valid()
      ensures if at.rest.More? then kind == at.rest.head.kind && kind != Eof else kind == Eof
    {
      kind := tokens[current].kind;
    }

    method StartHere() returns (start: Position)
      requires Valid()
      ensures start == Start(at)
    {
      start := tokens[current].span.start;
    }

    /** Only called behind a consumed token. */
    method Previous() returns (token: Token)
      requires Valid() && current > 0
      ensures at.previous == Some(token)
    {
      token := tokens[current - 1];
    }

    method Check(kind: TokenKind) returns (here: bool)
      requires Valid()
      ensures kind != Eof ==> here == at.Starts(kind)
      ensures kind == Eof ==> here == at.rest.End?
    {
      here := tokens[current].kind == kind;
    }

    /** The end of input is returned but never passed. */
    method Advance() returns (token: Token)
      requires Valid()
      modifies this`current, this`at
      ensures Valid() && current >= old(current) && token == old(at).Peek() && at == old(at).Next()
      ensures current > old(current) <==> old(at).rest.More?
      ensures token.kind == Eof <==> old(at).rest.End?
    {
      token := tokens[current];
      if token.kind != Eof {
        current := current + 1;
        at := at.Next();
      }
    }

    /** Move over a token that is known. */
    method Skip()
      requires Valid() && at.rest.More?
      modifies this`current, this`at
      ensures Valid() && current == old(current) + 1 && at == old(at).Next()
    {
      var _ := Advance();
    }

    method Matches(kind: TokenKind) returns (here: bool)
      requires Valid() && kind != Eof
      modifies this`current, this`at
      ensures Valid() && here == old(at).Starts(kind)
      ensures at == if here then old(at).Next() else old(at)
      ensures if here then current == old(current) + 1 else current == old(current)
    {
      here := Check(kind);
      if here {
        var _ := Advance();
      }
    }

    method ConsumeToken(kind: TokenKind) returns (r: Result<Token, ParseError>)
      requires Valid() && kind != Eof
      modifies this`current, this`at
      ensures Valid() && current >= old(current) && Agrees(r, Consume(old(at), kind), at)
      ensures r.Ok? ==> current == old(current) + 1
    {
      var here := Check(kind);
      if here {
        var token := Advance();
        return Ok(token);
      }
      return Err(ErrorAt(tokens[current], Expected(kind)));
    }

    /** A delimiter, whose text does not matter. */
    method Expect(kind: TokenKind) returns (missing: Option<ParseError>)
      requires Valid() && kind != Eof
      modifies this`current, this`at
      ensures Valid() && current >= old(current)
      ensures var spec := Consume(old(at), kind);
              if spec.Parsed? then missing.None? && at == spec.cursor && current == old(current) + 1
              else missing == Some(spec.error)
    {
      var token := ConsumeToken(kind);
      missing := if token.Ok? then None else Some(token.error);
    }

    /** An identifier, of which only the text matters. */
    method Name() returns (r: Result<string, ParseError>)
      requires Valid()
      modifies this`current, this`at
      ensures Valid() && current >= old(current)
      ensures var spec := Consume(old(at), IdentifierToken);
              if spec.Parsed? then r == Ok(spec.value.lexeme) && at == spec.cursor && current == old(current) + 1
              else r == Err(spec.error)
    {
      var token := ConsumeToken(IdentifierToken);
      r := if token.Ok? then Ok(token.value.lexeme) else Err(token.error);
    }

    method LocateExpression(e: Expr, start: Position) returns (located: Expr)
      requires Valid() && current > 0
      ensures located == Locate(M(), e, start, at)
    {
      if !spans {
        return e;
      }
      var bare := if e.Located? then e.inner else e;
      var last := Previous();
      return Located(Span(start, last.span.end), bare);
    }

    // ----- expressions -----

    method AssignmentExpression() returns (r: Result<Expr, ParseError>)
      requires Valid()
      modifies this
      ensures Valid() && constructors == old(constructors) && current >= old(current)
      ensures Agrees(r, ParseAssignment(M(), old(at), old(constructors)), at)
      ensures r.Ok? ==> current > old(current)
      decreases at.Length(), 12
    {
      hide ParseSend, Assignable, Locate, StandsAt;
      var start := StartHere();
      var target := SendExpression();
      if target.Err? {
        return target;
      }
      var equal := Matches(EqualSign);
      if !equal {
        return target;
      }
      if !Assignable(target.value) {
        var behind := Previous();
        return Err(ErrorAt(behind, InvalidTarget));
      }
      var value := AssignmentExpression();
      if value.Err? {
        return value;
      }
      var e := LocateExpression(Assignment(target.value, value.value), start);
      return Ok(e);
    }

    method SendExpression() returns (r: Result<Expr, ParseError>)
      requires Valid()
      modifies this
      ensures Valid() && constructors == old(constructors) && current >= old(current)
      ensures Agrees(r, ParseSend(M(), old(at), old(constructors)), at)
      ensures r.Ok? ==> current > old(current)
      decreases at.Length(), 11
    {
      hide ParseBinary, ParseDestination, Locate, StandsAt;
      var start := StartHere();
      var connection := BinaryExpression(6);
      if connection.Err? {
        return connection;
      }
      var send := Matches(SendWord);
      if !send {
        return connection;
      }
      var data := BinaryExpression(6);
      if data.Err? {
        return data;
      }
      var destination := Destination();
      if destination.Err? {
        return Err(destination.error);
      }
      var again := Check(SendWord);
      if again {
        var ahead := Peek();
        return Err(ErrorAt(ahead, NestedSend));
      }
      var operands := [connection.value, data.value] + (if destination.value.Some? then [destination.value.value] else []);
      var e := LocateExpression(Effect(Send, operands), start);
      return Ok(e);
    }

    method Destination() returns (r: Result<Option<Expr>, ParseError>)
      requires Valid()
      modifies this
      ensures Valid() && constructors == old(constructors) && current >= old(current)
      ensures Agrees(r, ParseDestination(M(), old(at), old(constructors)), at)
      decreases at.Length(), 11
    {
      hide ParseBinary, StandsAt;
      var to := Matches(ToWord);
      if !to {
        return Ok(None);
      }
      var destination := BinaryExpression(6);
      return if destination.Ok? then Ok(Some(destination.value)) else Err(destination.error);
    }

    /** The operator of a level at the cursor. */
    method OperatorHere(level: nat) returns (op: Option<BinaryOp>)
      requires Valid()
      ensures op == NextOperator(at, level)
    {
      EofIsNoOperator(level);
      var kind := PeekKind();
      op := OperatorAt(level, kind);
    }

    /** Each level reads its operands from the next tighter one. */
    method BinaryExpression(level: nat) returns (r: Result<Expr, ParseError>)
      requires Valid() && level <= 6
      modifies this
      ensures Valid() && constructors == old(constructors) && current >= old(current)
      ensures Agrees(r, ParseBinary(M(), old(at), old(constructors), level), at)
      ensures r.Ok? ==> current > old(current)
      decreases at.Length(), 4 + level
    {
      BinarySteps(M(), at, constructors, level);
      hide ParseUnary, ParseBinary, ParseBinaryRest, StandsAt;
      if level == 0 {
        r := UnaryExpression();
        return;
      }
      var start := StartHere();
      r := BinaryExpression(level - 1);
      if r.Ok? {
        r := BinaryTail(level, start, r.value);
      }
    }

    /** The loop of a level; operators associate to the left. */
    method BinaryTail(level: nat, start: Position, first: Expr) returns (r: Result<Expr, ParseError>)
      requires Valid() && 1 <= level <= 6 && current > 0
      modifies this
      ensures Valid() && constructors == old(constructors) && current >= old(current)
      ensures Agrees(r, ParseBinaryRest(M(), old(at), old(constructors), level, start, first), at)
      decreases at.Length(), 0
    {
      hide ParseBinary, ParseBinaryRest, NextOperator, OperatorAt, Locate, StandsAt;
      var e := first;
      while true
        invariant Valid() && constructors == old(constructors) && current >= old(current)
        invariant at.Length() <= old(at).Length()
        invariant ParseBinaryRest(M(), old(at), old(constructors), level, start, first)
               == ParseBinaryRest(M(), at, constructors, level, start, e)
        decreases at.Length()
      {
        OperatorSteps(M(), at, constructors, level, start, e);
        var op := OperatorHere(level);
        if op.None? {
          return Ok(e);
        }
        Skip();
        var right := BinaryExpression(level - 1);
        if right.Err? {
          return right;
        }
        e := LocateExpression(Binary(e, op.value, right.value), start);
      }
    }

    method UnaryExpression() returns (r: Result<Expr, ParseError>)
      requires Valid()
      modifies this
      ensures Valid() && constructors == old(constructors) && current >= old(current)
      ensures Agrees(r, ParseUnary(M(), old(at), old(constructors)), at)
      ensures r.Ok? ==> current > old(current)
      decreases at.Length(), 3
    {
      hide ParsePostfix, Locate, StandsAt;
      var start := StartHere();
      var bang := Check(Bang);
      var minus := Check(Minus);
      if !bang && !minus {
        r := PostfixExpression();
        return;
      }
      Skip();
      var operand := UnaryExpression();
      if operand.Err? {
        return operand;
      }
      var e := LocateExpression(Unary(if bang then Not else Negate, operand.value), start);
      return Ok(e);
    }

    method PostfixExpression() returns (r: Result<Expr, ParseError>)
      requires Valid()
      modifies this
      ensures Valid() && constructors == old(constructors) && current >= old(current)
      ensures Agrees(r, ParsePostfix(M(), old(at), old(constructors)), at)
      ensures r.Ok? ==> current > old(current)
      decreases at.Length(), 2
    {
      hide ParsePrimary, ParsePostfixOne, Locate, StandsAt;
      var start := StartHere();
      var primary := Primary();
      if primary.Err? {
        return primary;
      }
      var e := primary.value;
      while true
        invariant Valid() && constructors == old(constructors) && current > old(current)
        invariant ParsePostfix(M(), old(at), old(constructors)) == ParsePostfixRest(M(), at, start, e)
        decreases at.Length()
      {
        var longer := Suffix(e);
        if longer.Err? {
          return Err(longer.error);
        }
        if longer.value.None? {
          return Ok(e);
        }
        e := LocateExpression(longer.value.value, start);
      }
    }

    /** One call, index, receive or property, if there is one. */
    method Suffix(e: Expr) returns (r: Result<Option<Expr>, ParseError>)
      requires Valid()
      modifies this
      ensures Valid() && constructors == old(constructors) && current >= old(current)
      ensures Agrees(r, ParsePostfixOne(M(), old(at), e), at)
      ensures r.Ok? && r.value.Some? ==> current > old(current)
      decreases at.Length(), 1
    {
      NoSuffix(M(), at, e);
      hide ParsePostfixOne, ParseList, ParseAssignment, Consume, BracketPart, NamePart, StandsAt;
      var kind := PeekKind();
      if kind == LeftParen {
        CallSteps(M(), at, e);
        Skip();
        var arguments := ExpressionList(RightParen);
        return if arguments.Ok? then Ok(Some(Call(e, arguments.value))) else Err(arguments.error);
      } else if kind == LeftBracket {
        IndexSteps(M(), at, e);
        var inside := Bracketed();
        return if inside.Ok? then Ok(Some(Index(e, inside.value))) else Err(inside.error);
      } else if kind == ReceiveWord {
        ReceiveSteps(M(), at, e);
        Skip();
        return Ok(Some(Effect(Receive, [e])));
      } else if kind == Dot {
        PropertySteps(M(), at, e);
        var name := PropertyName();
        return if name.Ok? then Ok(Some(Property(e, name.value))) else Err(name.error);
      } else {
        return Ok(None);
      }
    }

    /** An index between brackets. */
    method Bracketed() returns (r: Result<Expr, ParseError>)
      requires Valid() && at.Starts(LeftBracket)
      modifies this
      ensures Valid() && constructors == old(constructors) && current > old(current)
      ensures Agrees(r, BracketPart(M(), old(at)), at)
      decreases at.Length(), 0
    {
      hide ParseAssignment, StandsAt;
      Skip();
      r := DelimitedExpression(true);
      if r.Ok? {
        var missing := Expect(RightBracket);
        if missing.Some? {
          return Err(missing.value);
        }
      }
    }

    /** A name behind a dot. */
    method PropertyName() returns (r: Result<string, ParseError>)
      requires Valid() && at.Starts(Dot)
      modifies this
      ensures Valid() && constructors == old(constructors) && current > old(current)
      ensures Agrees(r, NamePart(old(at)), at)
    {
      hide StandsAt;
      Skip();
      r := Name();
    }

    /** Parse with the flag replaced, and put it back whatever happens. */
    method DelimitedExpression(flag: bool) returns (r: Result<Expr, ParseError>)
      requires Valid()
      modifies this
      ensures Valid() && constructors == old(constructors) && current >= old(current)
      ensures Agrees(r, ParseAssignment(M(), old(at), flag), at)
      ensures r.Ok? ==> current > old(current)
      decreases at.Length(), 13
    {
      hide ParseAssignment, StandsAt;
      var previous := constructors;
      constructors := flag;
      r := AssignmentExpression();
      constructors := previous;
    }

    method ExpressionList(closing: TokenKind) returns (r: Result<seq<Expr>, ParseError>)
      requires Valid() && closing != Eof
      modifies this
      ensures Valid() && constructors == old(constructors) && current >= old(current)
      ensures Agrees(r, ParseList(M(), old(at), closing), at)
      ensures r.Ok? ==> current > old(current)
      decreases at.Length(), 14
    {
      hide ParseAssignment, ParseItems, Consume, StandsAt;
      var empty := Matches(closing);
      if empty {
        return Ok([]);
      }
      var values: seq<Expr> := [];
      while true
        invariant Valid() && constructors == old(constructors) && current >= old(current)
        invariant ParseList(M(), old(at), closing) == ParseItems(M(), at, closing, values)
        decreases at.Length()
      {
        ItemsSteps(M(), at, closing, values);
        var value := DelimitedExpression(true);
        if value.Err? {
          return Err(value.error);
        }
        values := values + [value.value];
        var comma := Matches(Comma);
        var end := Check(closing);
        if !comma || end {
          break;
        }
      }
      var missing := Expect(closing);
      return if missing.None? then Ok(values) else Err(missing.value);
    }

    method ObjectFields() returns (r: Result<seq<Field>, ParseError>)
      requires Valid()
      modifies this
      ensures Valid() && constructors == old(constructors) && current >= old(current)
      ensures Agrees(r, ParseFields(M(), old(at)), at)
      ensures r.Ok? ==> current > old(current)
      decreases at.Length(), 15
    {
      hide ParseField, ParseFieldItems, Consume, StandsAt;
      var empty := Matches(RightBrace);
      if empty {
        return Ok([]);
      }
      var fields: seq<Field> := [];
      while true
        invariant Valid() && constructors == old(constructors) && current >= old(current)
        invariant ParseFields(M(), old(at)) == ParseFieldItems(M(), at, fields)
        decreases at.Length()
      {
        FieldItemsSteps(M(), at, fields);
        var field := ObjectField();
        if field.Err? {
          return Err(field.error);
        }
        fields := fields + [field.value];
        var comma := Matches(Comma);
        var end := Check(RightBrace);
        if !comma || end {
          break;
        }
      }
      var missing := Expect(RightBrace);
      return if missing.None? then Ok(fields) else Err(missing.value);
    }

    method ObjectField() returns (r: Result<Field, ParseError>)
      requires Valid()
      modifies this
      ensures Valid() && constructors == old(constructors) && current >= old(current)
      ensures Agrees(r, ParseField(M(), old(at)), at)
      ensures r.Ok? ==> current > old(current)
      decreases at.Length(), 14
    {
      hide ParseAssignment, StringOf, StandsAt;
      var token := Advance();
      var key := Ok(token.lexeme);
      if token.kind.StringToken? {
        key := DecodeString(token);
      } else if !token.kind.IdentifierToken? {
        key := Err(ErrorAt(token, ExpectedKey));
      }
      if key.Err? {
        return Err(key.error);
      }
      var missing := Expect(Colon);
      if missing.Some? {
        return Err(missing.value);
      }
      var value := DelimitedExpression(true);
      return if value.Ok? then Ok(Field(key.value, value.value)) else Err(value.error);
    }

    method Primary() returns (r: Result<Expr, ParseError>)
      requires Valid()
      modifies this
      ensures Valid() && constructors == old(constructors) && current >= old(current)
      ensures Agrees(r, ParsePrimary(M(), old(at), old(constructors)), at)
      ensures r.Ok? ==> current > old(current)
      decreases at.Length(), 1
    {
      hide ParsePrimaryInner, Locate, StandsAt;
      var start := StartHere();
      var inner := PrimaryInner();
      if inner.Err? {
        return inner;
      }
      var e := LocateExpression(inner.value, start);
      return Ok(e);
    }

    method PrimaryInner() returns (r: Result<Expr, ParseError>)
      requires Valid()
      modifies this
      ensures Valid() && constructors == old(constructors) && current >= old(current)
      ensures Agrees(r, ParsePrimaryInner(M(), old(at), old(constructors)), at)
      ensures r.Ok? ==> current > old(current)
      decreases at.Length(), 0
    {
      hide ParseList, ParseAssignment, ParseFields, ParseObject, ParseConnection, ParseRequest, LiteralOf, StandsAt;
      var token := Advance();
      if IsLiteral(token.kind) {
        r := Literal(token);
      } else if token.kind.TransportWord? {
        r := ConnectionExpression(token.kind.transport);
      } else if token.kind.VerbWord? {
        r := RequestExpression(token.kind.verb);
      } else if token.kind.IdentifierToken? {
        r := NameOrConstructor(token);
      } else if token.kind.LeftParen? {
        r := DelimitedExpression(true);
        if r.Ok? {
          var missing := Expect(RightParen);
          if missing.Some? {
            return Err(missing.value);
          }
        }
      } else if token.kind.LeftBracket? {
        var elements := ExpressionList(RightBracket);
        return if elements.Ok? then Ok(ArrayLit(elements.value)) else Err(elements.error);
      } else if token.kind.LeftBrace? {
        r := ObjectLiteral();
      } else {
        return Err(ErrorAt(token, ExpectedExpression));
      }
    }

    method Literal(token: Token) returns (r: Result<Expr, ParseError>)
      requires IsLiteral(token.kind)
      ensures r == LiteralOf(M(), token)
    {
      hide StringOf, StandsAt;
      if token.kind.StringToken? {
        var text := DecodeString(token);
        return if text.Ok? then Ok(StringLit(text.value)) else Err(text.error);
      }
      r := LiteralOf(Mode(spans, floats), token);
    }

    /** A brace behind a name starts a constructor only where the flag allows it. */
    method NameOrConstructor(token: Token) returns (r: Result<Expr, ParseError>)
      requires Valid()
      modifies this
      ensures Valid() && constructors == old(constructors) && current >= old(current)
      ensures if old(constructors) && old(at).Starts(LeftBrace) then
                var fields := ParseFields(M(), old(at).Next());
                if fields.Parsed? then r == Ok(Construct(token.lexeme, fields.value)) && at == fields.cursor
                else r == Err(fields.error)
              else r == Ok(Identifier(token.lexeme)) && at == old(at)
      decreases at.Length(), 16
    {
      hide ParseFields, StandsAt;
      var brace := Check(LeftBrace);
      if !constructors || !brace {
        return Ok(Identifier(token.lexeme));
      }
      Skip();
      var fields := ObjectFields();
      return if fields.Ok? then Ok(Construct(token.lexeme, fields.value)) else Err(fields.error);
    }

    method ConnectionExpression(transport: Transport) returns (r: Result<Expr, ParseError>)
      requires Valid()
      modifies this
      ensures Valid() && constructors == old(constructors) && current >= old(current)
      ensures Agrees(r, ParseConnection(M(), old(at), transport), at)
      ensures r.Ok? ==> current > old(current)
      decreases at.Length(), 13
    {
      ConnectionSteps(M(), at, transport);
      hide ParseBinary, ParseConnection, Consume, StandsAt;
      var previous := constructors;
      constructors := false;
      var address := BinaryExpression(6);
      constructors := previous;
      if address.Err? {
        return address;
      }
      var using := Matches(UsingWord);
      if !using {
        return Ok(Effect(Connect(transport, None), [address.value]));
      }
      var protocol := Name();
      return if protocol.Ok? then Ok(Effect(Connect(transport, Some(protocol.value)), [address.value])) else Err(protocol.error);
    }

    method RequestExpression(verb: HttpMethod) returns (r: Result<Expr, ParseError>)
      requires Valid()
      modifies this
      ensures Valid() && constructors == old(constructors) && current >= old(current)
      ensures Agrees(r, ParseRequest(M(), old(at), verb), at)
      ensures r.Ok? ==> current > old(current)
      decreases at.Length(), 14
    {
      hide ParseAssignment, ParseObject, StandsAt;
      var url := DelimitedExpression(false);
      if url.Err? {
        return url;
      }
      var brace := Matches(LeftBrace);
      if !brace {
        return Ok(Effect(Request(verb), [url.value]));
      }
      var config := ObjectLiteral();
      return if config.Ok? then Ok(Effect(Request(verb), [url.value, config.value])) else config;
    }

    method ObjectLiteral() returns (r: Result<Expr, ParseError>)
      requires Valid() && current > 0
      modifies this
      ensures Valid() && constructors == old(constructors) && current >= old(current)
      ensures Agrees(r, ParseObject(M(), old(at)), at)
      ensures r.Ok? ==> current > old(current)
      decreases at.Length(), 16
    {
      hide ParseFields, Locate, StandsAt;
      var opening := Previous();
      var start := opening.span.start;
      var fields := ObjectFields();
      if fields.Err? {
        return Err(fields.error);
      }
      var e := LocateExpression(ObjectLit(fields.value), start);
      return Ok(e);
    }

    // ----- declarations and statements -----

    method TypeName() returns (r: Result<TypeAnnotation, ParseError>)
      requires Valid()
      modifies this
      ensures Valid() && constructors == old(constructors) && current >= old(current)
      ensures Agrees(r, ParseTypeName(M(), old(at)), at)
      ensures r.Ok? ==> current > old(current)
    {
      hide Consume, StandsAt;
      var token := ConsumeToken(IdentifierToken);
      if token.Err? {
        return Err(token.error);
      }
      return Ok(TypeAnnotation(token.value.lexeme, if spans then Some(token.value.span) else None));
    }

    /** A type behind a colon or an arrow, if there is one. */
    method OptionalTypeName(marker: TokenKind) returns (r: Result<Option<TypeAnnotation>, ParseError>)
      requires Valid() && (marker == Colon || marker == Arrow)
      modifies this
      ensures Valid() && constructors == old(constructors) && current >= old(current)
      ensures Agrees(r, if marker == Colon then ParseAnnotation(M(), old(at)) else ParseResult(M(), old(at)), at)
    {
      hide ParseTypeName, StandsAt;
      var here := Matches(marker);
      if !here {
        return Ok(None);
      }
      var name := TypeName();
      return if name.Ok? then Ok(Some(name.value)) else Err(name.error);
    }

    method TypeFieldDeclaration() returns (r: Result<TypeField, ParseError>)
      requires Valid()
      modifies this
      ensures Valid() && constructors == old(constructors) && current >= old(current)
      ensures Agrees(r, ParseTypeField(M(), old(at)), at)
      ensures r.Ok? ==> current > old(current)
    {
      hide ParseTypeName, Consume, StandsAt;
      var name := Name();
      if name.Err? {
        return Err(name.error);
      }
      var missing := Expect(Colon);
      if missing.Some? {
        return Err(missing.value);
      }
      var annotation := TypeName();
      return if annotation.Ok? then Ok(TypeField(name.value, annotation.value)) else Err(annotation.error);
    }

    method TypeFieldDeclarations() returns (r: Result<seq<TypeField>, ParseError>)
      requires Valid()
      modifies this
      ensures Valid() && constructors == old(constructors) && current >= old(current)
      ensures Agrees(r, ParseTypeFields(M(), old(at), []), at)
      ensures r.Ok? ==> current > old(current)
    {
      hide ParseTypeField, ParseTypeFields, Consume, StandsAt;
      var fields: seq<TypeField> := [];
      while true
        invariant Valid() && constructors == old(constructors) && current >= old(current)
        invariant ParseTypeFields(M(), old(at), []) == ParseTypeFields(M(), at, fields)
        decreases at.Length()
      {
        TypeFieldsSteps(M(), at, fields);
        var field := TypeFieldDeclaration();
        if field.Err? {
          return Err(field.error);
        }
        fields := fields + [field.value];
        var comma := Matches(Comma);
        var end := Check(RightBrace);
        if !comma || end {
          break;
        }
      }
      var missing := Expect(RightBrace);
      return if missing.None? then Ok(fields) else Err(missing.value);
    }

    method TypeDeclaration() returns (r: Result<Stmt, ParseError>)
      requires Valid()
      modifies this
      ensures Valid() && constructors == old(constructors) && current >= old(current)
      ensures Agrees(r, ParseTypeDecl(M(), old(at)), at)
      ensures r.Ok? ==> current > old(current)
    {
      hide ParseTypeFields, StandsAt;
      var name := Name();
      if name.Err? {
        return Err(name.error);
      }
      var missing := Expect(LeftBrace);
      if missing.Some? {
        return Err(missing.value);
      }
      var empty := Matches(RightBrace);
      if empty {
        return Ok(TypeDecl(name.value, []));
      }
      var fields := TypeFieldDeclarations();
      return if fields.Ok? then Ok(TypeDecl(name.value, fields.value)) else Err(fields.error);
    }

    method ParameterDeclaration() returns (r: Result<Parameter, ParseError>)
      requires Valid()
      modifies this
      ensures Valid() && constructors == old(constructors) && current >= old(current)
      ensures Agrees(r, ParseParameter(M(), old(at)), at)
      ensures r.Ok? ==> current > old(current)
    {
      hide ParseAnnotation, ParseResult, StandsAt;
      var name := Name();
      if name.Err? {
        return Err(name.error);
      }
      var annotation := OptionalTypeName(Colon);
      return if annotation.Ok? then Ok(Parameter(name.value, annotation.value)) else Err(annotation.error);
    }

    method ParameterDeclarations() returns (r: Result<seq<Parameter>, ParseError>)
      requires Valid()
      modifies this
      ensures Valid() && constructors == old(constructors) && current >= old(current)
      ensures Agrees(r, ParseParameterList(M(), old(at)), at)
      ensures r.Ok? ==> current > old(current)
    {
      hide ParseParameter, ParseParameters, StandsAt;
      var missing := Expect(LeftParen);
      if missing.Some? {
        return Err(missing.value);
      }
      var empty := Matches(RightParen);
      if empty {
        return Ok([]);
      }
      var parameters: seq<Parameter> := [];
      while true
        invariant Valid() && constructors == old(constructors) && current > old(current)
        invariant ParseParameterList(M(), old(at)) == ParseParameters(M(), at, parameters)
        decreases at.Length()
      {
        ParametersSteps(M(), at, parameters);
        var parameter := ParameterDeclaration();
        if parameter.Err? {
          return Err(parameter.error);
        }
        parameters := parameters + [parameter.value];
        var comma := Matches(Comma);
        var end := Check(RightParen);
        if !comma || end {
          break;
        }
      }
      missing := Expect(RightParen);
      return if missing.None? then Ok(parameters) else Err(missing.value);
    }

    /** Behind `let`. */
    method LetStatement() returns (r: Result<Stmt, ParseError>)
      requires Valid()
      modifies this
      ensures Valid() && constructors == old(constructors) && current >= old(current)
      ensures Agrees(r, ParseLet(M(), old(at), old(constructors)), at)
      ensures r.Ok? ==> current > old(current)
    {
      hide ParseParameter, ParseInitializer, StandsAt;
      var variable := ParameterDeclaration();
      if variable.Err? {
        return Err(variable.error);
      }
      var value := Initializer();
      return if value.Ok? then Ok(Let(variable.value.name, variable.value.annotation, value.value)) else Err(value.error);
    }

    method Initializer() returns (r: Result<Expr, ParseError>)
      requires Valid()
      modifies this
      ensures Valid() && constructors == old(constructors) && current >= old(current)
      ensures Agrees(r, ParseInitializer(M(), old(at), old(constructors)), at)
      ensures r.Ok? ==> current > old(current)
    {
      hide ParseAssignment, Consume, StandsAt;
      var missing := Expect(EqualSign);
      if missing.Some? {
        return Err(missing.value);
      }
      r := AssignmentExpression();
      if r.Ok? {
        missing := Expect(Semicolon);
        if missing.Some? {
          return Err(missing.value);
        }
      }
    }

    /** Behind `return`. */
    method ReturnStatement() returns (r: Result<Stmt, ParseError>)
      requires Valid()
      modifies this
      ensures Valid() && constructors == old(constructors) && current >= old(current)
      ensures Agrees(r, ParseReturn(M(), old(at), old(constructors)), at)
      ensures r.Ok? ==> current > old(current)
    {
      hide ParseAssignment, StandsAt;
      var bare := Matches(Semicolon);
      if bare {
        return Ok(Return(None));
      }
      var value := AssignmentExpression();
      if value.Err? {
        return Err(value.error);
      }
      var missing := Expect(Semicolon);
      return if missing.None? then Ok(Return(Some(value.value))) else Err(missing.value);
    }

    method ExpressionStatement() returns (r: Result<Stmt, ParseError>)
      requires Valid()
      modifies this
      ensures Valid() && constructors == old(constructors) && current >= old(current)
      ensures Agrees(r, ParseExpressionStmt(M(), old(at), old(constructors)), at)
      ensures r.Ok? ==> current > old(current)
    {
      hide ParseAssignment, StandsAt;
      var e := AssignmentExpression();
      if e.Err? {
        return Err(e.error);
      }
      var missing := Expect(Semicolon);
      return if missing.None? then Ok(ExprStmt(e.value)) else Err(missing.value);
    }

    method Declaration() returns (r: Result<Stmt, ParseError>)
      requires Valid()
      modifies this
      ensures Valid() && constructors == old(constructors) && current >= old(current)
      ensures Agrees(r, ParseDeclaration(M(), old(at), old(constructors)), at)
      ensures r.Ok? ==> current > old(current)
      decreases at.Length(), 21
    {
      hide ParseDeclarationInner, StandsAt;
      var start := StartHere();
      var s := DeclarationInner();
      if s.Err? {
        return s;
      }
      if !spans {
        return s;
      }
      var last := Previous();
      return Ok(LocatedStmt(Span(start, last.span.end), s.value));
    }

    method DeclarationInner() returns (r: Result<Stmt, ParseError>)
      requires Valid()
      modifies this
      ensures Valid() && constructors == old(constructors) && current >= old(current)
      ensures Agrees(r, ParseDeclarationInner(M(), old(at), old(constructors)), at)
      ensures r.Ok? ==> current > old(current)
      decreases at.Length(), 20
    {
      hide ParseTypeDecl, ParseFunction, ParseLet, ParseStatement, StandsAt;
      var kind := PeekKind();
      if kind == TypeWord {
        Skip();
        r := TypeDeclaration();
      } else if kind == FnWord {
        Skip();
        r := FunctionDeclaration();
      } else if kind == LetWord {
        Skip();
        r := LetStatement();
      } else {
        r := Statement();
      }
    }

    /** Behind `fn`. */
    method FunctionDeclaration() returns (r: Result<Stmt, ParseError>)
      requires Valid()
      modifies this
      ensures Valid() && constructors == old(constructors) && current >= old(current)
      ensures Agrees(r, ParseFunction(M(), old(at), old(constructors)), at)
      ensures r.Ok? ==> current > old(current)
      decreases at.Length(), 20
    {
      hide ParseSignature, ParseBlock, Consume, StandsAt;
      var name := Name();
      if name.Err? {
        return Err(name.error);
      }
      var signature := FunctionSignature();
      if signature.Err? {
        return Err(signature.error);
      }
      var body := BlockStatement();
      return if body.Ok? then Ok(Function(name.value, signature.value.parameters, signature.value.result, body.value)) else body;
    }

    method FunctionSignature() returns (r: Result<Signature, ParseError>)
      requires Valid()
      modifies this
      ensures Valid() && constructors == old(constructors) && current >= old(current)
      ensures Agrees(r, ParseSignature(M(), old(at)), at)
      ensures r.Ok? ==> current > old(current)
    {
      hide ParseParameterList, ParseAnnotation, ParseResult, StandsAt;
      var parameters := ParameterDeclarations();
      if parameters.Err? {
        return Err(parameters.error);
      }
      var result := OptionalTypeName(Arrow);
      return if result.Ok? then Ok(Signature(parameters.value, result.value)) else Err(result.error);
    }

    /** Declarations up to the end of input or, in a block, its brace. */
    method Declarations(block: bool) returns (r: Result<seq<Stmt>, ParseError>)
      requires Valid()
      modifies this
      ensures Valid() && constructors == old(constructors) && current >= old(current)
      ensures Agrees(r, ParseMany(M(), old(at), old(constructors), block, []), at)
      decreases at.Length(), 22
    {
      hide ParseMany, ParseDeclaration, StandsAt;
      var statements: seq<Stmt> := [];
      while true
        invariant Valid() && constructors == old(constructors) && current >= old(current)
        invariant at.Length() <= old(at).Length()
        invariant ParseMany(M(), old(at), old(constructors), block, []) == ParseMany(M(), at, constructors, block, statements)
        decreases at.Length()
      {
        ManySteps(M(), at, constructors, block, statements);
        var kind := PeekKind();
        if kind == Eof || (block && kind == RightBrace) {
          return Ok(statements);
        }
        var s := Declaration();
        if s.Err? {
          return Err(s.error);
        }
        statements := statements + [s.value];
      }
    }

    method BlockStatement() returns (r: Result<Stmt, ParseError>)
      requires Valid()
      modifies this
      ensures Valid() && constructors == old(constructors) && current >= old(current)
      ensures Agrees(r, ParseBlock(M(), old(at), old(constructors)), at)
      ensures r.Ok? ==> current > old(current)
      decreases at.Length(), 18
    {
      hide ParseMany, StandsAt;
      var missing := Expect(LeftBrace);
      if missing.Some? {
        return Err(missing.value);
      }
      var statements := Declarations(true);
      if statements.Err? {
        return Err(statements.error);
      }
      missing := Expect(RightBrace);
      return if missing.None? then Ok(Block(statements.value)) else Err(missing.value);
    }

    method Statement() returns (r: Result<Stmt, ParseError>)
      requires Valid()
      modifies this
      ensures Valid() && constructors == old(constructors) && current >= old(current)
      ensures Agrees(r, ParseStatement(M(), old(at), old(constructors)), at)
      ensures r.Ok? ==> current > old(current)
      decreases at.Length(), 19
    {
      hide ParseLoopControl, ParseBlock, ParseIf, ParseWhile, ParseMatch, ParseFor, ParseReturn, ParseExpressionStmt, StandsAt;
      var kind := PeekKind();
      if kind == BreakWord || kind == ContinueWord {
        r := LoopControl();
      } else if kind == LeftBrace {
        r := BlockStatement();
      } else if kind == IfWord {
        Skip();
        r := IfStatement();
      } else if kind == WhileWord {
        Skip();
        r := WhileStatement();
      } else if kind == MatchWord {
        Skip();
        r := MatchStatement();
      } else if kind == ForWord || kind == ParallelWord {
        Skip();
        r := ForStatement(kind == ParallelWord);
      } else if kind == ReturnWord {
        Skip();
        r := ReturnStatement();
      } else {
        r := ExpressionStatement();
      }
    }

    method LoopControl() returns (r: Result<Stmt, ParseError>)
      requires Valid() && (at.Starts(BreakWord) || at.Starts(ContinueWord))
      modifies this
      ensures Valid() && constructors == old(constructors) && current >= old(current)
      ensures Agrees(r, ParseLoopControl(old(at)), at)
      ensures r.Ok? ==> current > old(current)
    {
      hide StandsAt;
      var token := Advance();
      var missing := Expect(Semicolon);
      return if missing.None? then Ok(if token.kind == BreakWord then Break else Continue) else Err(missing.value);
    }

    /** Behind `if`, including the one of an `else if`. */
    method IfStatement() returns (r: Result<Stmt, ParseError>)
      requires Valid()
      modifies this
      ensures Valid() && constructors == old(constructors) && current >= old(current)
      ensures Agrees(r, ParseIf(M(), old(at), old(constructors)), at)
      ensures r.Ok? ==> current > old(current)
      decreases at.Length(), 19
    {
      hide ParseAssignment, ParseBlock, ParseElse, StandsAt;
      var condition := DelimitedExpression(false);
      if condition.Err? {
        return Err(condition.error);
      }
      var thenBranch := BlockStatement();
      if thenBranch.Err? {
        return thenBranch;
      }
      var elseBranch := ElseBranch();
      return if elseBranch.Ok? then Ok(If(condition.value, thenBranch.value, elseBranch.value)) else Err(elseBranch.error);
    }

    method ElseBranch() returns (r: Result<Option<Stmt>, ParseError>)
      requires Valid()
      modifies this
      ensures Valid() && constructors == old(constructors) && current >= old(current)
      ensures Agrees(r, ParseElse(M(), old(at), old(constructors)), at)
      decreases at.Length(), 19
    {
      hide ParseIf, ParseBlock, StandsAt;
      var otherwise := Matches(ElseWord);
      if !otherwise {
        return Ok(None);
      }
      var again := Matches(IfWord);
      var branch;
      if again {
        branch := IfStatement();
      } else {
        branch := BlockStatement();
      }
      return if branch.Ok? then Ok(Some(branch.value)) else Err(branch.error);
    }

    /** Behind `while`. */
    method WhileStatement() returns (r: Result<Stmt, ParseError>)
      requires Valid()
      modifies this
      ensures Valid() && constructors == old(constructors) && current >= old(current)
      ensures Agrees(r, ParseWhile(M(), old(at), old(constructors)), at)
      ensures r.Ok? ==> current > old(current)
      decreases at.Length(), 19
    {
      hide ParseAssignment, ParseBlock, StandsAt;
      var condition := DelimitedExpression(false);
      if condition.Err? {
        return Err(condition.error);
      }
      var body := BlockStatement();
      return if body.Ok? then Ok(While(condition.value, body.value)) else body;
    }

    /** Behind `for` or `parallel`. */
    method ForStatement(parallel: bool) returns (r: Result<Stmt, ParseError>)
      requires Valid()
      modifies this
      ensures Valid() && constructors == old(constructors) && current >= old(current)
      ensures Agrees(r, ParseFor(M(), old(at), old(constructors), parallel), at)
      ensures r.Ok? ==> current > old(current)
      decreases at.Length(), 19
    {
      hide ParseAssignment, ParseBlock, Consume, StandsAt;
      var variable := Name();
      if variable.Err? {
        return Err(variable.error);
      }
      var missing := Expect(InWord);
      if missing.Some? {
        return Err(missing.value);
      }
      var iterable := DelimitedExpression(false);
      if iterable.Err? {
        return Err(iterable.error);
      }
      var body := BlockStatement();
      if body.Err? {
        return body;
      }
      return Ok(if parallel then Parallel(variable.value, iterable.value, body.value) else For(variable.value, iterable.value, body.value));
    }

    /** Behind `match`. */
    method MatchStatement() returns (r: Result<Stmt, ParseError>)
      requires Valid()
      modifies this
      ensures Valid() && constructors == old(constructors) && current >= old(current)
      ensures Agrees(r, ParseMatch(M(), old(at), old(constructors)), at)
      ensures r.Ok? ==> current > old(current)
      decreases at.Length(), 19
    {
      hide ParseAssignment, ParseArms, Consume, StandsAt;
      var subject := DelimitedExpression(false);
      if subject.Err? {
        return Err(subject.error);
      }
      var missing := Expect(LeftBrace);
      if missing.Some? {
        return Err(missing.value);
      }
      var arms := MatchArms();
      if arms.Err? {
        return Err(arms.error);
      }
      missing := Expect(RightBrace);
      return if missing.None? then Ok(Match(subject.value, arms.value)) else Err(missing.value);
    }

    method MatchArms() returns (r: Result<seq<MatchArm>, ParseError>)
      requires Valid()
      modifies this
      ensures Valid() && constructors == old(constructors) && current >= old(current)
      ensures Agrees(r, ParseArms(M(), old(at), old(constructors), []), at)
      decreases at.Length(), 22
    {
      hide ParseArms, ParseArm, StandsAt;
      var arms: seq<MatchArm> := [];
      while true
        invariant Valid() && constructors == old(constructors) && current >= old(current)
        invariant at.Length() <= old(at).Length()
        invariant ParseArms(M(), old(at), old(constructors), []) == ParseArms(M(), at, constructors, arms)
        decreases at.Length()
      {
        ArmsSteps(M(), at, constructors, arms);
        var kind := PeekKind();
        if kind == Eof || kind == RightBrace {
          return Ok(arms);
        }
        var arm := ArmOfMatch();
        if arm.Err? {
          return Err(arm.error);
        }
        arms := arms + [arm.value];
      }
    }

    method ArmOfMatch() returns (r: Result<MatchArm, ParseError>)
      requires Valid() && at.rest.More?
      modifies this
      ensures Valid() && constructors == old(constructors) && current >= old(current)
      ensures Agrees(r, ParseArm(M(), old(at), old(constructors)), at)
      ensures r.Ok? ==> current > old(current)
      decreases at.Length(), 21
    {
      hide PatternOf, ParseBlock, StandsAt;
      var token := Advance();
      var pattern := PatternOf(token);
      if pattern.Err? {
        return Err(pattern.error);
      }
      var missing := Expect(FatArrow);
      if missing.Some? {
        return Err(missing.value);
      }
      var body := BlockStatement();
      return if body.Ok? then Ok(MatchArm(if spans then LocatedPattern(token.span, pattern.value) else pattern.value, body.value)) else Err(body.error);
    }

    /** The whole input. */
    method Program() returns (r: Result<seq<Stmt>, ParseError>)
      requires Valid()
      modifies this
      ensures Valid() && constructors == old(constructors) && current >= old(current)
      ensures Agrees(r, ParseMany(M(), old(at), old(constructors), false, []), at)
    {
      hide ParseMany, StandsAt;
      r := Declarations(false);
    }
  }

  lemma EofIsNoOperator(level: nat)
    ensures OperatorAt(level, Eof).None?
  {
  }

  // ----- single steps of the grammar -----

  lemma NoSuffix(m: Mode, c: Cursor, e: Expr)
    ensures !c.Starts(LeftParen) && !c.Starts(LeftBracket) && !c.Starts(ReceiveWord) && !c.Starts(Dot) ==>
              ParsePostfixOne(m, c, e) == Parsed(None, c)
  {
    hide ParseList, ParseAssignment;
  }

  function BracketPart(m: Mode, c: Cursor): Parse<Expr> {
    match ParseAssignment(m, c.Next(), true)
    case Failed(error) => Failed(error)
    case Parsed(index, inside) =>
      match Consume(inside, RightBracket)
      case Failed(error) => Failed(error)
      case Parsed(_, after) => Parsed(index, after)
  }

  function NamePart(c: Cursor): Parse<string> {
    match Consume(c.Next(), IdentifierToken)
    case Failed(error) => Failed(error)
    case Parsed(name, after) => Parsed(name.lexeme, after)
  }

  lemma CallSteps(m: Mode, c: Cursor, e: Expr)
    requires c.Starts(LeftParen)
    ensures var arguments := ParseList(m, c.Next(), RightParen);
            && (arguments.Failed? ==> ParsePostfixOne(m, c, e) == Failed(arguments.error))
            && (arguments.Parsed? ==> ParsePostfixOne(m, c, e) == Parsed(Some(Call(e, arguments.value)), arguments.cursor))
  {
    hide ParseList, ParseAssignment, Consume;
  }

  lemma IndexSteps(m: Mode, c: Cursor, e: Expr)
    requires c.Starts(LeftBracket)
    ensures var index := BracketPart(m, c);
            && (index.Failed? ==> ParsePostfixOne(m, c, e) == Failed(index.error))
            && (index.Parsed? ==> ParsePostfixOne(m, c, e) == Parsed(Some(Index(e, index.value)), index.cursor))
  {
    hide ParseList, ParseAssignment, Consume;
  }

  lemma ReceiveSteps(m: Mode, c: Cursor, e: Expr)
    requires c.Starts(ReceiveWord)
    ensures ParsePostfixOne(m, c, e) == Parsed(Some(Effect(Receive, [e])), c.Next())
  {
    hide ParseList, ParseAssignment, Consume;
  }

  lemma PropertySteps(m: Mode, c: Cursor, e: Expr)
    requires c.Starts(Dot)
    ensures var name := NamePart(c);
            && (name.Failed? ==> ParsePostfixOne(m, c, e) == Failed(name.error))
            && (name.Parsed? ==> ParsePostfixOne(m, c, e) == Parsed(Some(Property(e, name.value)), name.cursor))
  {
    hide ParseList, ParseAssignment, Consume;
  }

  lemma ConnectionSteps(m: Mode, c: Cursor, transport: Transport)
    ensures var address := ParseBinary(m, c, false, 6);
            && (address.Failed? ==> ParseConnection(m, c, transport) == address)
            && (address.Parsed? && !address.cursor.Starts(UsingWord) ==>
                  ParseConnection(m, c, transport) == Parsed(Effect(Connect(transport, None), [address.value]), address.cursor))
            && (address.Parsed? && address.cursor.Starts(UsingWord) ==>
                  var protocol := Consume(address.cursor.Next(), IdentifierToken);
                  && (protocol.Failed? ==> ParseConnection(m, c, transport) == Failed(protocol.error))
                  && (protocol.Parsed? ==>
                        ParseConnection(m, c, transport)
                          == Parsed(Effect(Connect(transport, Some(protocol.value.lexeme)), [address.value]), protocol.cursor)))
  {
    hide ParseBinary, Consume;
  }

  lemma TypeFieldsSteps(m: Mode, c: Cursor, done: seq<TypeField>)
    ensures var e := ParseTypeField(m, c);
            && (e.Failed? ==> ParseTypeFields(m, c, done) == Failed(e.error))
            && (e.Parsed? ==>
                  var more := done + [e.value];
                  var next := if e.cursor.Starts(Comma) then e.cursor.Next() else e.cursor;
                  if e.cursor.Starts(Comma) && !next.Starts(RightBrace)
                  then ParseTypeFields(m, c, done) == ParseTypeFields(m, next, more)
                  else
                    var last := Consume(next, RightBrace);
                    ParseTypeFields(m, c, done) == if last.Parsed? then Parsed(more, last.cursor) else Failed(last.error))
  {
    hide ParseTypeField;
  }

  lemma ParametersSteps(m: Mode, c: Cursor, done: seq<Parameter>)
    ensures var e := ParseParameter(m, c);
            && (e.Failed? ==> ParseParameters(m, c, done) == Failed(e.error))
            && (e.Parsed? ==>
                  var more := done + [e.value];
                  var next := if e.cursor.Starts(Comma) then e.cursor.Next() else e.cursor;
                  if e.cursor.Starts(Comma) && !next.Starts(RightParen)
                  then ParseParameters(m, c, done) == ParseParameters(m, next, more)
                  else
                    var last := Consume(next, RightParen);
                    ParseParameters(m, c, done) == if last.Parsed? then Parsed(more, last.cursor) else Failed(last.error))
  {
    hide ParseParameter;
  }

  lemma ManySteps(m: Mode, c: Cursor, cons: bool, block: bool, done: seq<Stmt>)
    ensures c.rest.End? || (block && c.Starts(RightBrace)) ==> ParseMany(m, c, cons, block, done) == Parsed(done, c)
    ensures !c.rest.End? && !(block && c.Starts(RightBrace)) ==>
              var s := ParseDeclaration(m, c, cons);
              && (s.Failed? ==> ParseMany(m, c, cons, block, done) == Failed(s.error))
              && (s.Parsed? ==> ParseMany(m, c, cons, block, done) == ParseMany(m, s.cursor, cons, block, done + [s.value]))
  {
    hide ParseDeclaration;
  }

  lemma ArmsSteps(m: Mode, c: Cursor, cons: bool, done: seq<MatchArm>)
    ensures c.rest.End? || c.Starts(RightBrace) ==> ParseArms(m, c, cons, done) == Parsed(done, c)
    ensures !c.rest.End? && !c.Starts(RightBrace) ==>
              var arm := ParseArm(m, c, cons);
              && (arm.Failed? ==> ParseArms(m, c, cons, done) == Failed(arm.error))
              && (arm.Parsed? ==> ParseArms(m, c, cons, done) == ParseArms(m, arm.cursor, cons, done + [arm.value]))
  {
    hide ParseArm;
  }

  lemma BinarySteps(m: Mode, c: Cursor, cons: bool, level: nat)
    requires level <= 6
    ensures level == 0 ==> ParseBinary(m, c, cons, 0) == ParseUnary(m, c, cons)
    ensures level > 0 ==>
              var first := ParseBinary(m, c, cons, level - 1);
              && (first.Failed? ==> ParseBinary(m, c, cons, level) == first)
              && (first.Parsed? ==>
                    ParseBinary(m, c, cons, level) == ParseBinaryRest(m, first.cursor, cons, level, Start(c), first.value))
  {
    hide ParseUnary, ParseBinaryRest;
  }

  lemma OperatorSteps(m: Mode, c: Cursor, cons: bool, level: nat, start: Position, left: Expr)
    requires 1 <= level <= 6
    ensures var op := NextOperator(c, level);
            var rest := ParseBinaryRest(m, c, cons, level, start, left);
            && (op.None? ==> rest == Parsed(left, c))
            && (op.Some? ==>
                  var right := ParseBinary(m, c.Next(), cons, level - 1);
                  && c.rest.More?
                  && (right.Failed? ==> rest == right)
                  && (right.Parsed? ==>
                        rest == ParseBinaryRest(m, right.cursor, cons, level, start,
                                                Locate(m, Binary(left, op.value, right.value), start, right.cursor))))
  {
    hide ParseBinary, Locate;
  }

  /** What follows one element of a list. */
  lemma ItemsSteps(m: Mode, c: Cursor, closing: TokenKind, done: seq<Expr>)
    ensures var e := ParseAssignment(m, c, true);
            && (e.Failed? ==> ParseItems(m, c, closing, done) == Failed(e.error))
            && (e.Parsed? ==>
                  var more := done + [e.value];
                  var next := if e.cursor.Starts(Comma) then e.cursor.Next() else e.cursor;
                  if e.cursor.Starts(Comma) && !next.Starts(closing)
                  then ParseItems(m, c, closing, done) == ParseItems(m, next, closing, more)
                  else
                    var last := Consume(next, closing);
                    ParseItems(m, c, closing, done) == if last.Parsed? then Parsed(more, last.cursor) else Failed(last.error))
  {
    hide ParseAssignment;
  }

  lemma FieldItemsSteps(m: Mode, c: Cursor, done: seq<Field>)
    ensures var e := ParseField(m, c);
            && (e.Failed? ==> ParseFieldItems(m, c, done) == Failed(e.error))
            && (e.Parsed? ==>
                  var more := done + [e.value];
                  var next := if e.cursor.Starts(Comma) then e.cursor.Next() else e.cursor;
                  if e.cursor.Starts(Comma) && !next.Starts(RightBrace)
                  then ParseFieldItems(m, c, done) == ParseFieldItems(m, next, more)
                  else
                    var last := Consume(next, RightBrace);
                    ParseFieldItems(m, c, done) == if last.Parsed? then Parsed(more, last.cursor) else Failed(last.error))
  {
    hide ParseField;
  }
}
