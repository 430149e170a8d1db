/** Parsing printed statements gives them back. */
module StatementRoundTrip {
  import opened Wrappers
  import opened Source
  import opened Ast
  import opened Tokens
  import opened Literals
  import opened Grammar
  import opened Declarations
  import opened Printing
  import opened StatementPrinting
  import opened RoundTrip

  // ----- types, parameters and patterns -----

  lemma TypeParses(m: Mode, c: Cursor, kind: TokenKind, annotation: Option<TypeAnnotation>, k: Stream)
    requires !m.spans && c.rest == PrintType(kind, annotation, k) && PlainOptionalType(annotation) && !k.Starts(kind)
    ensures kind == Colon ==> Yields(ParseAnnotation(m, c), annotation, k)
    ensures kind == Arrow ==> Yields(ParseResult(m, c), annotation, k)
  {
  }

  lemma ParameterParses(m: Mode, c: Cursor, p: Parameter, k: Stream)
    requires !m.spans && c.rest == PrintParameter(p, k) && PlainOptionalType(p.annotation) && !k.Starts(Colon)
    ensures Yields(ParseParameter(m, c), p, k)
  {
    hide ParseAnnotation, PrintType;
    TypeParses(m, c.Next(), Colon, p.annotation, k);
  }

  lemma ParametersStep(m: Mode, c: Cursor, done: seq<Parameter>, p: Parameter, next: Cursor)
    requires ParseParameter(m, c) == Parsed(p, next)
    ensures next.Starts(RightParen) ==> ParseParameters(m, c, done) == Parsed(done + [p], next.Next())
    ensures next.Starts(Comma) && !next.Next().Starts(RightParen) ==>
              ParseParameters(m, c, done) == ParseParameters(m, next.Next(), done + [p])
  {
    hide ParseParameter;
  }

  function BehindParameter(parameters: seq<Parameter>, i: nat, k: Stream): Stream {
    if i + 1 < |parameters| then Put(Comma, ",", PrintParameters(parameters, i + 1, k)) else Put(RightParen, ")", k)
  }

  lemma PrintedParameters(parameters: seq<Parameter>, i: nat, k: Stream)
    requires i < |parameters|
    ensures PrintParameters(parameters, i, k) == PrintParameter(parameters[i], BehindParameter(parameters, i, k))
    ensures !BehindParameter(parameters, i, k).Starts(Colon)
  {
    hide PrintParameter;
  }

  /** What is behind a parameter, once it has been parsed. */
  lemma BehindFacts(parameters: seq<Parameter>, i: nat, k: Stream, next: Cursor)
    requires i < |parameters| && next.rest == BehindParameter(parameters, i, k)
    ensures i + 1 == |parameters| ==> next.Starts(RightParen) && next.Next().rest == k
    ensures i + 1 < |parameters| ==>
              next.Starts(Comma) && next.Next().rest == PrintParameters(parameters, i + 1, k) && !next.Next().Starts(RightParen)
  {
    if i + 1 < |parameters| {
      ParametersStart(parameters, i + 1, k);
    }
    hide PrintParameters;
  }

  lemma {:induction false} ParametersParse(m: Mode, c: Cursor, parameters: seq<Parameter>, i: nat, done: seq<Parameter>, k: Stream)
    requires !m.spans && i < |parameters| && PlainParameters(parameters) && c.rest == PrintParameters(parameters, i, k)
    ensures Yields(ParseParameters(m, c, done), done + parameters[i..], k)
    decreases |parameters| - i
  {
    hide ParseParameter, PrintParameter, ParseParameters, PrintParameters, BehindParameter, Cursor.Next, Cursor.Starts;
    PrintedParameters(parameters, i, k);
    ParameterParses(m, c, parameters[i], BehindParameter(parameters, i, k));
    var next := ParseParameter(m, c).cursor;
    BehindFacts(parameters, i, k, next);
    ParametersStep(m, c, done, parameters[i], next);
    assert parameters[i..] == [parameters[i]] + parameters[i + 1..];
    if i + 1 == |parameters| {
      assert done + [parameters[i]] == done + parameters[i..];
    } else {
      ParametersParse(m, next.Next(), parameters, i + 1, done + [parameters[i]], k);
      assert done + [parameters[i]] + parameters[i + 1..] == done + parameters[i..];
    }
  }

  lemma ParametersStart(parameters: seq<Parameter>, i: nat, k: Stream)
    requires i < |parameters|
    ensures !PrintParameters(parameters, i, k).Starts(RightParen)
  {
    ParameterStarts(parameters[i],
                    if i + 1 < |parameters| then Put(Comma, ",", PrintParameters(parameters, i + 1, k)) else Put(RightParen, ")", k));
  }

  lemma ParameterStarts(p: Parameter, k: Stream)
    ensures PrintParameter(p, k).Starts(IdentifierToken)
  {
  }

  lemma ParameterListParses(m: Mode, c: Cursor, parameters: seq<Parameter>, k: Stream)
    requires !m.spans && PlainParameters(parameters) && c.rest == Put(LeftParen, "(", PrintParameters(parameters, 0, k))
    ensures Yields(ParseParameterList(m, c), parameters, k)
  {
    hide ParseParameters, PrintParameter;
    if parameters != [] {
      ParametersStart(parameters, 0, k);
      hide PrintParameters;
      ParametersParse(m, c.Next(), parameters, 0, [], k);
      assert [] + parameters[0..] == parameters;
    }
  }

  lemma TypeFieldParses(m: Mode, c: Cursor, field: TypeField, k: Stream)
    requires !m.spans && c.rest == PrintTypeField(field, k) && PlainType(field.annotation)
    ensures Yields(ParseTypeField(m, c), field, k)
  {
  }

  lemma TypeFieldsStep(m: Mode, c: Cursor, done: seq<TypeField>, field: TypeField, next: Cursor)
    requires ParseTypeField(m, c) == Parsed(field, next)
    ensures next.Starts(RightBrace) ==> ParseTypeFields(m, c, done) == Parsed(done + [field], next.Next())
    ensures next.Starts(Comma) && !next.Next().Starts(RightBrace) ==>
              ParseTypeFields(m, c, done) == ParseTypeFields(m, next.Next(), done + [field])
  {
    hide ParseTypeField;
  }

  function BehindField(fields: seq<TypeField>, i: nat, k: Stream): Stream {
    if i + 1 < |fields| then Put(Comma, ",", PrintTypeFields(fields, i + 1, k)) else Put(RightBrace, "}", k)
  }

  lemma PrintedFields(fields: seq<TypeField>, i: nat, k: Stream)
    requires i < |fields|
    ensures PrintTypeFields(fields, i, k) == PrintTypeField(fields[i], BehindField(fields, i, k))
  {
    hide PrintTypeField;
  }

  lemma BehindFieldFacts(fields: seq<TypeField>, i: nat, k: Stream, next: Cursor)
    requires i < |fields| && next.rest == BehindField(fields, i, k)
    ensures i + 1 == |fields| ==> next.Starts(RightBrace) && next.Next().rest == k
    ensures i + 1 < |fields| ==>
              next.Starts(Comma) && next.Next().rest == PrintTypeFields(fields, i + 1, k) && !next.Next().Starts(RightBrace)
  {
    if i + 1 < |fields| {
      TypeFieldsStart(fields, i + 1, k);
    }
    hide PrintTypeFields;
  }

  lemma {:induction false} TypeFieldsParse(m: Mode, c: Cursor, fields: seq<TypeField>, i: nat, done: seq<TypeField>, k: Stream)
    requires !m.spans && i < |fields| && PlainFields(fields) && c.rest == PrintTypeFields(fields, i, k)
    ensures Yields(ParseTypeFields(m, c, done), done + fields[i..], k)
    decreases |fields| - i
  {
    hide ParseTypeField, PrintTypeField, ParseTypeFields, PrintTypeFields, BehindField, Cursor.Next, Cursor.Starts;
    PrintedFields(fields, i, k);
    TypeFieldParses(m, c, fields[i], BehindField(fields, i, k));
    var next := ParseTypeField(m, c).cursor;
    BehindFieldFacts(fields, i, k, next);
    TypeFieldsStep(m, c, done, fields[i], next);
    assert fields[i..] == [fields[i]] + fields[i + 1..];
    if i + 1 == |fields| {
      assert done + [fields[i]] == done + fields[i..];
    } else {
      TypeFieldsParse(m, next.Next(), fields, i + 1, done + [fields[i]], k);
      assert done + [fields[i]] + fields[i + 1..] == done + fields[i..];
    }
  }

  lemma TypeFieldsStart(fields: seq<TypeField>, i: nat, k: Stream)
    requires i < |fields|
    ensures !PrintTypeFields(fields, i, k).Starts(RightBrace)
  {
  }

  lemma TypeDeclStep(m: Mode, c: Cursor)
    requires c.Starts(IdentifierToken) && c.Next().Starts(LeftBrace)
    ensures var inside := c.Next().Next();
            ParseTypeDecl(m, c) ==
              if inside.Starts(RightBrace) then Parsed(TypeDecl(c.Peek().lexeme, []), inside.Next())
              else
                var r := ParseTypeFields(m, inside, []);
                if r.Failed? then Failed(r.error) else Parsed(TypeDecl(c.Peek().lexeme, r.value), r.cursor)
  {
    hide ParseTypeFields;
  }

  lemma TypeDeclParses(m: Mode, c: Cursor, s: Stmt, k: Stream)
    requires !m.spans && s.TypeDecl? && PlainFields(s.fields)
    requires c.rest == PutName(s.name, Put(LeftBrace, "{", PrintTypeFields(s.fields, 0, k)))
    ensures Yields(ParseTypeDecl(m, c), s, k)
  {
    hide ParseTypeFields, ParseTypeDecl, PrintTypeFields, Put, PutName, PlainFields, Cursor.Next, Cursor.Starts, Cursor.Peek;
    NamedBrace(c, s.name, PrintTypeFields(s.fields, 0, k));
    NoFields(s.fields, k);
    var inside := c.Next().Next();
    TypeDeclStep(m, c);
    if s.fields == [] {
      PutFacts(inside, RightBrace, "}", k);
    } else {
      FieldsFollow(s.fields, k, inside);
      TypeFieldsParse(m, inside, s.fields, 0, [], k);
      assert [] + s.fields[0..] == s.fields;
    }
  }

  lemma NamedBrace(c: Cursor, name: string, k: Stream)
    requires c.rest == PutName(name, Put(LeftBrace, "{", k))
    ensures c.Starts(IdentifierToken) && c.Peek().lexeme == name && c.Next().Starts(LeftBrace) && c.Next().Next().rest == k
  {
  }

  lemma FieldsFollow(fields: seq<TypeField>, k: Stream, c: Cursor)
    requires fields != [] && c.rest == PrintTypeFields(fields, 0, k)
    ensures !c.Starts(RightBrace)
  {
    TypeFieldsStart(fields, 0, k);
  }

  lemma NoFields(fields: seq<TypeField>, k: Stream)
    ensures fields == [] ==> PrintTypeFields(fields, 0, k) == Put(RightBrace, "}", k)
  {
    hide PrintTypeField;
  }

  lemma PatternReads(p: Pattern, k: Stream)
    requires !p.LocatedPattern?
    ensures var s := PrintPattern(p, k); s.More? && s.tail == k && PatternOf(s.head) == Ok(p) && s.head.kind != RightBrace
  {
    hide Escape, Decimal, SignedDecimal;
    var token := PrintPattern(p, k).head;
    if p.IntegerPattern? {
      SignedRoundTrip(p.integer);
    } else if p.StringPattern? {
      QuotedRoundTrip(token, p.text);
    }
  }

  // ----- expressions in statements -----

  /** In front of a semicolon. */
  lemma ValueParses(m: Mode, show: FloatPrinter, c: Cursor, e: Expr, k: Stream)
    requires !m.spans && Producible(m, show, e) && c.rest == Print(show, e, 8, true, Put(Semicolon, ";", k))
    ensures Yields(ParseAssignment(m, c, true), e, Put(Semicolon, ";", k))
  {
    hide Producible, Print, ParseAssignment, Stops;
    PutStops(Semicolon, ";", k, 8, true);
    Whole(m, show, c, true, e, 8, Put(Semicolon, ";", k));
  }

  lemma AloneParses(m: Mode, show: FloatPrinter, c: Cursor, e: Expr, k: Stream)
    requires !m.spans && Producible(m, show, e) && c.rest == PrintAlone(show, e, Put(Semicolon, ";", k))
    ensures Yields(ParseAssignment(m, c, true), e, Put(Semicolon, ";", k))
  {
    hide Producible, Print, PrintBare, ParseAssignment;
    var end := Put(Semicolon, ";", k);
    if Print(show, e, 8, true, end).Starts(LeftBrace) {
      hide ParsePrimaryInner;
      var after := ParenParses(m, show, c, true, e, end);
      PrimaryIsWhole(m, c, true, e, after);
    } else {
      ValueParses(m, show, c, e, k);
    }
  }

  /** In front of a block. */
  lemma HeadParses(m: Mode, show: FloatPrinter, c: Cursor, e: Expr, k: Stream)
    requires !m.spans && Producible(m, show, e) && c.rest == PrintHead(show, e, k) && k.Starts(LeftBrace)
    ensures Yields(ParseAssignment(m, c, false), e, k)
  {
    hide Producible, Print, ParseAssignment, Stops;
    BraceStops(k);
    Whole(m, show, c, false, e, 8, k);
  }

  // ----- first tokens -----

  /** How statements begin; an `else`, a closing brace and the end of input are none of these. */
  predicate Begins(kind: TokenKind) {
    || kind.TypeWord? || kind.FnWord? || kind.LetWord? || kind.BreakWord? || kind.ContinueWord? || kind.LeftBrace?
    || kind.IfWord? || kind.WhileWord? || kind.MatchWord? || kind.ForWord? || kind.ParallelWord? || kind.ReturnWord?
    || (Opens(kind) && !kind.LeftBrace?)
  }

  lemma AloneBegins(m: Mode, show: FloatPrinter, e: Expr, k: Stream)
    requires Producible(m, show, e)
    ensures var s := PrintAlone(show, e, k); s.More? && Opens(s.head.kind) && !s.head.kind.LeftBrace?
  {
    hide Producible, Print, PrintBare;
    PrintOpens(m, show, e, 8, true, k);
  }

  lemma StmtBegins(m: Mode, show: FloatPrinter, s: Stmt, k: Stream)
    requires Writable(m, show, s)
    ensures var p := PrintStmt(show, s, k); p.More? && Begins(p.head.kind) && (s.Block? ==> p.head.kind == LeftBrace)
  {
    hide Producible, Print, PrintHead, PrintAlone, PrintParameters, PrintTypeFields;
    if s.ExprStmt? {
      AloneBegins(m, show, s.expression, Put(Semicolon, ";", k));
    }
  }

  lemma StmtsBegin(m: Mode, show: FloatPrinter, parent: Stmt, stmts: seq<Stmt>, i: nat, k: Stream)
    requires (forall j | 0 <= j < |stmts| :: stmts[j] < parent) && AllWritable(m, show, stmts)
    ensures var p := PrintStmts(show, parent, stmts, i, k);
            if i < |stmts| then p.More? && Begins(p.head.kind) else p == k
  {
    hide Writable, PrintStmt;
    if i < |stmts| {
      StmtBegins(m, show, stmts[i], PrintStmts(show, parent, stmts, i + 1, k));
    }
  }

  // ----- simple statements -----

  lemma StaysBare(m: Mode, c: Cursor, s: Stmt, k: Stream)
    requires !m.spans && Yields(ParseDeclarationInner(m, c, true), s, k)
    ensures Yields(ParseDeclaration(m, c, true), s, k)
  {
    hide ParseDeclarationInner;
  }

  lemma LetParses(m: Mode, show: FloatPrinter, c: Cursor, s: Stmt, k: Stream)
    requires !m.spans && s.Let? && Writable(m, show, s)
    requires c.rest == PrintParameter(Parameter(s.name, s.annotation), Put(EqualSign, "=", Print(show, s.value, 8, true, Put(Semicolon, ";", k))))
    ensures Yields(ParseLet(m, c, true), s, k)
  {
    hide Producible, Print, ParseAssignment, ParseParameter, PrintParameter;
    var value := Print(show, s.value, 8, true, Put(Semicolon, ";", k));
    ParameterParses(m, c, Parameter(s.name, s.annotation), Put(EqualSign, "=", value));
    var here := ParseParameter(m, c).cursor;
    ValueParses(m, show, here.Next(), s.value, k);
  }

  lemma ReturnParses(m: Mode, show: FloatPrinter, c: Cursor, s: Stmt, k: Stream)
    requires !m.spans && s.Return? && Writable(m, show, s)
    requires c.rest == if s.returned.Some? then Print(show, s.returned.value, 8, true, Put(Semicolon, ";", k)) else Put(Semicolon, ";", k)
    ensures Yields(ParseReturn(m, c, true), s, k)
  {
    hide Producible, Print, ParseAssignment;
    if s.returned.Some? {
      PrintOpens(m, show, s.returned.value, 8, true, Put(Semicolon, ";", k));
      ValueParses(m, show, c, s.returned.value, k);
    }
  }

  lemma StartsWith(c: Cursor, kind: TokenKind)
    requires c.rest.More?
    ensures c.Starts(kind) <==> kind == c.rest.head.kind
  {
  }

  lemma FirstDecides(m: Mode, c: Cursor)
    requires c.rest.More?
    ensures var kind, r := c.rest.head.kind, ParseStatement(m, c, true);
            && (kind == BreakWord || kind == ContinueWord ==> r == ParseLoopControl(c))
            && (kind == LeftBrace ==> r == ParseBlock(m, c, true))
            && (kind == IfWord ==> r == ParseIf(m, c.Next(), true))
            && (kind == WhileWord ==> r == ParseWhile(m, c.Next(), true))
            && (kind == MatchWord ==> r == ParseMatch(m, c.Next(), true))
  {
    hide ParseLoopControl, ParseBlock, ParseIf, ParseWhile, ParseMatch, ParseFor, ParseReturn, ParseExpressionStmt, Cursor.Next;
    hide Cursor.Starts, Stream.Starts;
    StartsWith(c, BreakWord);
    StartsWith(c, ContinueWord);
    StartsWith(c, LeftBrace);
    StartsWith(c, IfWord);
    StartsWith(c, WhileWord);
    StartsWith(c, MatchWord);
  }

  lemma LastDecides(m: Mode, c: Cursor)
    requires c.rest.More? && !c.Starts(BreakWord) && !c.Starts(ContinueWord) && !c.Starts(LeftBrace) && !c.Starts(IfWord)
    requires !c.Starts(WhileWord) && !c.Starts(MatchWord)
    ensures var kind, r := c.rest.head.kind, ParseStatement(m, c, true);
            r == if kind == ForWord then ParseFor(m, c.Next(), true, false)
                 else if kind == ParallelWord then ParseFor(m, c.Next(), true, true)
                 else if kind == ReturnWord then ParseReturn(m, c.Next(), true)
                 else ParseExpressionStmt(m, c, true)
  {
    hide ParseLoopControl, ParseBlock, ParseIf, ParseWhile, ParseMatch, ParseFor, ParseReturn, ParseExpressionStmt, Cursor.Next;
    hide Cursor.Starts, Stream.Starts;
    StartsWith(c, ForWord);
    StartsWith(c, ParallelWord);
    StartsWith(c, ReturnWord);
  }

  /** The first token decides which statement is parsed. */
  lemma StatementDecides(m: Mode, c: Cursor)
    requires c.rest.More?
    ensures var r := ParseStatement(m, c, true);
            match c.rest.head.kind
            case BreakWord => r == ParseLoopControl(c)
            case ContinueWord => r == ParseLoopControl(c)
            case LeftBrace => r == ParseBlock(m, c, true)
            case IfWord => r == ParseIf(m, c.Next(), true)
            case WhileWord => r == ParseWhile(m, c.Next(), true)
            case MatchWord => r == ParseMatch(m, c.Next(), true)
            case ForWord => r == ParseFor(m, c.Next(), true, false)
            case ParallelWord => r == ParseFor(m, c.Next(), true, true)
            case ReturnWord => r == ParseReturn(m, c.Next(), true)
            case _ => r == ParseExpressionStmt(m, c, true)
  {
    var kind := c.rest.head.kind;
    FirstDecides(m, c);
    if kind != BreakWord && kind != ContinueWord && kind != LeftBrace && kind != IfWord && kind != WhileWord && kind != MatchWord {
      LastDecides(m, c);
    }
    hide ParseStatement, ParseLoopControl, ParseBlock, ParseIf, ParseWhile, ParseMatch, ParseFor, ParseReturn, ParseExpressionStmt;
  }

  lemma DeclarationDecides(m: Mode, c: Cursor)
    requires c.rest.More?
    ensures var r := ParseDeclarationInner(m, c, true);
            match c.rest.head.kind
            case TypeWord => r == ParseTypeDecl(m, c.Next())
            case FnWord => r == ParseFunction(m, c.Next(), true)
            case LetWord => r == ParseLet(m, c.Next(), true)
            case _ => r == ParseStatement(m, c, true)
  {
    hide ParseTypeDecl, ParseFunction, ParseLet, ParseStatement, Cursor.Next;
  }

  lemma ExpressionStmtParses(m: Mode, show: FloatPrinter, c: Cursor, s: Stmt, k: Stream)
    requires !m.spans && s.ExprStmt? && Producible(m, show, s.expression) && c.rest == PrintAlone(show, s.expression, Put(Semicolon, ";", k))
    ensures Yields(ParseExpressionStmt(m, c, true), s, k)
  {
    hide Producible, PrintAlone, ParseAssignment;
    AloneParses(m, show, c, s.expression, k);
  }

  lemma LoopControlParses(m: Mode, c: Cursor, s: Stmt, k: Stream)
    requires s == Break || s == Continue
    requires c.rest == Put(if s == Break then BreakWord else ContinueWord, if s == Break then "break" else "continue", Put(Semicolon, ";", k))
    ensures Yields(ParseLoopControl(c), s, k)
  {
  }

  /** Keyword and parts of a simple statement. */
  lemma SimpleFacts(m: Mode, show: FloatPrinter, c: Cursor, s: Stmt, k: Stream)
    requires Writable(m, show, s) && c.rest == PrintStmt(show, s, k)
    ensures s.TypeDecl? ==>
              && c.Starts(TypeWord) && PlainFields(s.fields)
              && c.Next().rest == PutName(s.name, Put(LeftBrace, "{", PrintTypeFields(s.fields, 0, k)))
    ensures s.Let? ==>
              && c.Starts(LetWord)
              && c.Next().rest == PrintParameter(Parameter(s.name, s.annotation),
                                                 Put(EqualSign, "=", Print(show, s.value, 8, true, Put(Semicolon, ";", k))))
    ensures s.Return? ==>
              && c.Starts(ReturnWord)
              && c.Next().rest == if s.returned.Some? then Print(show, s.returned.value, 8, true, Put(Semicolon, ";", k))
                                  else Put(Semicolon, ";", k)
    ensures s.ExprStmt? ==> Producible(m, show, s.expression) && c.rest == PrintAlone(show, s.expression, Put(Semicolon, ";", k))
    ensures s == Break ==> c.rest == Put(BreakWord, "break", Put(Semicolon, ";", k))
    ensures s == Continue ==> c.rest == Put(ContinueWord, "continue", Put(Semicolon, ";", k))
  {
    hide Producible, Print, PrintAlone, PrintTypeFields, PrintParameter;
  }

  lemma LoopControlStarts(c: Cursor, k: Stream)
    ensures c.rest == Put(BreakWord, "break", k) ==> c.Starts(BreakWord)
    ensures c.rest == Put(ContinueWord, "continue", k) ==> c.Starts(ContinueWord)
  {
  }

  lemma SimpleParses(m: Mode, show: FloatPrinter, c: Cursor, s: Stmt, k: Stream)
    requires !m.spans && Writable(m, show, s) && c.rest == PrintStmt(show, s, k)
    requires s.TypeDecl? || s.Break? || s.Continue? || s.Let? || s.Return? || s.ExprStmt?
    ensures Yields(ParseDeclarationInner(m, c, true), s, k)
  {
    hide Producible, Print, PrintStmt, PrintAlone, PrintTypeFields, PrintParameter, ParseDeclarationInner, ParseStatement;
    hide ParseTypeDecl, ParseLet, ParseReturn, ParseExpressionStmt, ParseLoopControl, Put, PutName, Writable;
    SimpleFacts(m, show, c, s, k);
    StmtBegins(m, show, s, k);
    DeclarationDecides(m, c);
    StatementDecides(m, c);
    match s
    case TypeDecl(_, _) => TypeDeclParses(m, c.Next(), s, k);
    case Let(_, _, _) => LetParses(m, show, c.Next(), s, k);
    case Return(_) => ReturnParses(m, show, c.Next(), s, k);
    case ExprStmt(e) =>
      AloneBegins(m, show, e, Put(Semicolon, ";", k));
      ExpressionStmtParses(m, show, c, s, k);
    case _ =>
      LoopControlStarts(c, Put(Semicolon, ";", k));
      LoopControlParses(m, c, s, k);
  }

  // ----- statements with bodies -----

  lemma {:induction false} BlockParses(m: Mode, show: FloatPrinter, c: Cursor, body: Stmt, k: Stream)
    requires !m.spans && body.Block? && Writable(m, show, body) && c.rest == PrintStmt(show, body, k)
    ensures Yields(ParseBlock(m, c, true), body, k)
    decreases body, 2, 0
  {
    hide Writable, PrintStmts, ParseMany;
    BlockFacts(m, show, body, k);
    var end := Put(RightBrace, "}", k);
    PutFacts(c, LeftBrace, "{", PrintStmts(show, body, body.statements, 0, end));
    StmtsParse(m, show, c.Next(), body, body.statements, 0, true, [], end);
    assert [] + body.statements[0..] == body.statements;
  }

  lemma BlockFacts(m: Mode, show: FloatPrinter, body: Stmt, k: Stream)
    requires body.Block? && Writable(m, show, body)
    ensures AllWritable(m, show, body.statements)
    ensures PrintStmt(show, body, k) == Put(LeftBrace, "{", PrintStmts(show, body, body.statements, 0, Put(RightBrace, "}", k)))
  {
    hide PrintStmts;
  }

  lemma ManyStep(m: Mode, c: Cursor, block: bool, done: seq<Stmt>, s: Stmt, next: Cursor)
    requires c.rest.More? && !(block && c.Starts(RightBrace)) && ParseDeclaration(m, c, true) == Parsed(s, next)
    ensures ParseMany(m, c, true, block, done) == ParseMany(m, next, true, block, done + [s])
  {
    hide ParseDeclaration;
  }

  lemma ManyEnd(m: Mode, c: Cursor, block: bool, done: seq<Stmt>)
    requires c.rest.End? || (block && c.Starts(RightBrace))
    ensures ParseMany(m, c, true, block, done) == Parsed(done, c)
  {
    hide ParseDeclaration;
  }

  lemma PrintedStmts(show: FloatPrinter, parent: Stmt, stmts: seq<Stmt>, i: nat, k: Stream)
    requires forall j | 0 <= j < |stmts| :: stmts[j] < parent
    ensures PrintStmts(show, parent, stmts, i, k) ==
            if i >= |stmts| then k else PrintStmt(show, stmts[i], PrintStmts(show, parent, stmts, i + 1, k))
  {
    hide PrintStmt;
  }

  lemma EndStarts(c: Cursor, k: Stream, block: bool)
    requires c.rest == k && (k.End? || (block && k.Starts(RightBrace)))
    ensures c.rest.End? || (block && c.Starts(RightBrace))
  {
  }

  lemma BeginsOther(m: Mode, show: FloatPrinter, parent: Stmt, stmts: seq<Stmt>, i: nat, c: Cursor, k: Stream)
    requires (forall j | 0 <= j < |stmts| :: stmts[j] < parent) && AllWritable(m, show, stmts) && i < |stmts|
    requires c.rest == PrintStmts(show, parent, stmts, i, k)
    ensures c.rest.More? && !c.Starts(RightBrace)
  {
    hide PrintStmts, AllWritable;
    StmtsBegin(m, show, parent, stmts, i, k);
  }

  lemma BehindStmt(m: Mode, show: FloatPrinter, parent: Stmt, stmts: seq<Stmt>, i: nat, block: bool, k: Stream)
    requires (forall j | 0 <= j < |stmts| :: stmts[j] < parent) && AllWritable(m, show, stmts)
    requires k.End? || (block && k.Starts(RightBrace))
    ensures !PrintStmts(show, parent, stmts, i, k).Starts(ElseWord)
  {
    hide PrintStmts, AllWritable;
    StmtsBegin(m, show, parent, stmts, i, k);
  }

  lemma {:induction false} StmtsParse(
    m: Mode, show: FloatPrinter, c: Cursor, parent: Stmt, stmts: seq<Stmt>, i: nat, block: bool, done: seq<Stmt>, k: Stream)
    requires !m.spans && i <= |stmts| && (forall j | 0 <= j < |stmts| :: stmts[j] < parent) && AllWritable(m, show, stmts)
    requires c.rest == PrintStmts(show, parent, stmts, i, k) && (k.End? || (block && k.Starts(RightBrace)))
    ensures Yields(ParseMany(m, c, true, block, done), done + stmts[i..], k)
    decreases parent, 1, |stmts| - i
  {
    hide Writable, PrintStmt, PrintStmts, ParseMany, ParseDeclaration, Cursor.Starts, Stream.Starts, Begins;
    PrintedStmts(show, parent, stmts, i, k);
    if i == |stmts| {
      EndStarts(c, k, block);
      ManyEnd(m, c, block, done);
      assert done + stmts[i..] == done;
      return;
    }
    var behind := PrintStmts(show, parent, stmts, i + 1, k);
    BeginsOther(m, show, parent, stmts, i, c, k);
    BehindStmt(m, show, parent, stmts, i + 1, block, k);
    StmtParses(m, show, c, stmts[i], behind);
    var next := ParseDeclaration(m, c, true).cursor;
    ManyStep(m, c, block, done, stmts[i], next);
    StmtsParse(m, show, next, parent, stmts, i + 1, block, done + [stmts[i]], k);
    assert done + [stmts[i]] + stmts[i + 1..] == done + stmts[i..];
  }

  /** A head and the block behind it. */
  lemma {:induction false} HeadAndBlock(m: Mode, show: FloatPrinter, c: Cursor, head: Expr, body: Stmt, k: Stream)
    requires !m.spans && Producible(m, show, head) && body.Block? && Writable(m, show, body)
    requires c.rest == PrintHead(show, head, PrintStmt(show, body, k))
    ensures Yields(ParseAssignment(m, c, false), head, PrintStmt(show, body, k))
    ensures Yields(ParseBlock(m, ParseAssignment(m, c, false).cursor, true), body, k)
    decreases body, 3
  {
    hide Producible, Writable, PrintHead, PrintStmt, ParseAssignment, ParseBlock;
    StmtBegins(m, show, body, k);
    HeadParses(m, show, c, head, PrintStmt(show, body, k));
    BlockParses(m, show, ParseAssignment(m, c, false).cursor, body, k);
  }

  lemma {:induction false} IfParses(m: Mode, show: FloatPrinter, c: Cursor, s: Stmt, k: Stream)
    requires !m.spans && s.If? && Writable(m, show, s) && !k.Starts(ElseWord)
    requires Put(IfWord, "if", c.rest) == PrintStmt(show, s, k)
    ensures Yields(ParseIf(m, c, true), s, k)
    decreases s, 2, 1
  {
    IfFacts(m, show, s, k);
    hide Producible, Writable, PrintHead, PrintStmt, ParseAssignment, ParseBlock, ParseElse, PrintElse;
    var behind := PrintElse(show, s, k);
    HeadAndBlock(m, show, c, s.condition, s.thenBranch, behind);
    var here := ParseBlock(m, ParseAssignment(m, c, false).cursor, true).cursor;
    ElseParses(m, show, here, s, k);
  }

  function PrintElse(show: FloatPrinter, s: Stmt, k: Stream): Stream
    requires s.If?
  {
    if s.elseBranch.Some? then Put(ElseWord, "else", PrintStmt(show, s.elseBranch.value, k)) else k
  }

  lemma IfFacts(m: Mode, show: FloatPrinter, s: Stmt, k: Stream)
    requires s.If? && Writable(m, show, s)
    ensures PrintStmt(show, s, k) == Put(IfWord, "if", PrintHead(show, s.condition, PrintStmt(show, s.thenBranch, PrintElse(show, s, k))))
    ensures Producible(m, show, s.condition) && s.thenBranch.Block? && Writable(m, show, s.thenBranch)
    ensures s.elseBranch.Some? ==> (s.elseBranch.value.Block? || s.elseBranch.value.If?) && Writable(m, show, s.elseBranch.value)
  {
    hide Producible, PrintHead;
  }

  lemma {:induction false} ElseParses(m: Mode, show: FloatPrinter, c: Cursor, s: Stmt, k: Stream)
    requires !m.spans && s.If? && !k.Starts(ElseWord) && c.rest == PrintElse(show, s, k)
    requires s.elseBranch.Some? ==> (s.elseBranch.value.Block? || s.elseBranch.value.If?) && Writable(m, show, s.elseBranch.value)
    ensures Yields(ParseElse(m, c, true), s.elseBranch, k)
    decreases s, 2, 0
  {
    hide Writable, ParseIf, ParseBlock, PrintStmt;
    if s.elseBranch.Some? {
      var branch := s.elseBranch.value;
      PutFacts(c, ElseWord, "else", PrintStmt(show, branch, k));
      if branch.If? {
        IfFacts(m, show, branch, k);
        IfParses(m, show, c.Next().Next(), branch, k);
      } else {
        BlockFacts(m, show, branch, k);
        BlockParses(m, show, c.Next(), branch, k);
      }
    }
  }

  lemma {:induction false} WhileParses(m: Mode, show: FloatPrinter, c: Cursor, s: Stmt, k: Stream)
    requires !m.spans && s.While? && Producible(m, show, s.condition) && s.body.Block? && Writable(m, show, s.body)
    requires c.rest == PrintHead(show, s.condition, PrintStmt(show, s.body, k))
    ensures Yields(ParseWhile(m, c, true), s, k)
    decreases s, 2, 0
  {
    hide Producible, Writable, PrintHead, PrintStmt, ParseAssignment, ParseBlock;
    HeadAndBlock(m, show, c, s.condition, s.body, k);
  }

  lemma {:induction false} ForParses(m: Mode, show: FloatPrinter, c: Cursor, s: Stmt, k: Stream)
    requires !m.spans && (s.For? || s.Parallel?) && Producible(m, show, s.iterable) && s.body.Block? && Writable(m, show, s.body)
    requires c.rest == PutName(s.variable, Put(InWord, "in", PrintHead(show, s.iterable, PrintStmt(show, s.body, k))))
    ensures Yields(ParseFor(m, c, true, s.Parallel?), s, k)
    decreases s, 2, 0
  {
    hide Producible, Writable, PrintHead, PrintStmt, ParseAssignment, ParseBlock;
    HeadAndBlock(m, show, c.Next().Next(), s.iterable, s.body, k);
  }

  lemma SignatureParses(m: Mode, c: Cursor, s: Stmt, k: Stream)
    requires !m.spans && s.Function? && PlainParameters(s.parameters) && PlainOptionalType(s.result) && k.Starts(LeftBrace)
    requires c.rest == Put(LeftParen, "(", PrintParameters(s.parameters, 0, PrintType(Arrow, s.result, k)))
    ensures Yields(ParseSignature(m, c), Signature(s.parameters, s.result), k)
  {
    hide ParseParameterList, ParseResult, PrintParameters, PrintType;
    ParameterListParses(m, c, s.parameters, PrintType(Arrow, s.result, k));
    TypeParses(m, ParseParameterList(m, c).cursor, Arrow, s.result, k);
  }

  lemma {:induction false} FunctionParses(m: Mode, show: FloatPrinter, c: Cursor, s: Stmt, k: Stream)
    requires !m.spans && s.Function? && PlainParameters(s.parameters) && PlainOptionalType(s.result) && s.body.Block? && Writable(m, show, s.body)
    requires c.rest == PutName(s.name, Put(LeftParen, "(", PrintParameters(s.parameters, 0, PrintType(Arrow, s.result, PrintStmt(show, s.body, k)))))
    ensures Yields(ParseFunction(m, c, true), s, k)
    decreases s, 2, 0
  {
    hide Writable, PrintStmt, PrintParameters, PrintType, ParseSignature, ParseBlock;
    StmtBegins(m, show, s.body, k);
    SignatureParses(m, c.Next(), s, PrintStmt(show, s.body, k));
    BlockParses(m, show, ParseSignature(m, c.Next()).cursor, s.body, k);
  }

  // ----- match -----

  predicate ArmsWritable(m: Mode, show: FloatPrinter, arms: seq<MatchArm>) {
    forall i | 0 <= i < |arms| :: !arms[i].pattern.LocatedPattern? && arms[i].body.Block? && Writable(m, show, arms[i].body)
  }

  lemma {:induction false} ArmParses(m: Mode, show: FloatPrinter, c: Cursor, arm: MatchArm, k: Stream)
    requires !m.spans && !arm.pattern.LocatedPattern? && arm.body.Block? && Writable(m, show, arm.body)
    requires c.rest == PrintPattern(arm.pattern, Put(FatArrow, "=>", PrintStmt(show, arm.body, k)))
    ensures c.rest.More? && !c.Starts(RightBrace) && Yields(ParseArm(m, c, true), arm, k)
    decreases arm.body, 3
  {
    PatternReads(arm.pattern, Put(FatArrow, "=>", PrintStmt(show, arm.body, k)));
    hide Writable, PrintStmt, PrintPattern, PatternOf, ParseBlock;
    BlockParses(m, show, c.Next().Next(), arm.body, k);
  }

  lemma ArmsStep(m: Mode, c: Cursor, done: seq<MatchArm>, arm: MatchArm, next: Cursor)
    requires c.rest.More? && !c.Starts(RightBrace) && ParseArm(m, c, true) == Parsed(arm, next)
    ensures ParseArms(m, c, true, done) == ParseArms(m, next, true, done + [arm])
  {
    hide ParseArm;
  }

  lemma {:induction false} ArmsParse(
    m: Mode, show: FloatPrinter, c: Cursor, parent: Stmt, arms: seq<MatchArm>, i: nat, done: seq<MatchArm>, k: Stream)
    requires !m.spans && i <= |arms| && (forall j | 0 <= j < |arms| :: arms[j].body < parent) && ArmsWritable(m, show, arms)
    requires c.rest == PrintArms(show, parent, arms, i, k) && k.Starts(RightBrace)
    ensures Yields(ParseArms(m, c, true, done), done + arms[i..], k)
    decreases parent, 1, |arms| - i
  {
    hide Writable, PrintStmt, PrintPattern, ParseArm;
    if i == |arms| {
      assert done + arms[i..] == done;
      return;
    }
    hide ParseArms;
    var behind := PrintArms(show, parent, arms, i + 1, k);
    ArmParses(m, show, c, arms[i], behind);
    var next := ParseArm(m, c, true).cursor;
    hide PrintArms;
    ArmsStep(m, c, done, arms[i], next);
    ArmsParse(m, show, next, parent, arms, i + 1, done + [arms[i]], k);
    assert done + [arms[i]] + arms[i + 1..] == done + arms[i..];
  }

  lemma {:induction false} MatchParses(m: Mode, show: FloatPrinter, c: Cursor, s: Stmt, k: Stream)
    requires !m.spans && s.Match? && Producible(m, show, s.subject) && ArmsWritable(m, show, s.arms)
    requires c.rest == PrintHead(show, s.subject, Put(LeftBrace, "{", PrintArms(show, s, s.arms, 0, Put(RightBrace, "}", k))))
    ensures Yields(ParseMatch(m, c, true), s, k)
    decreases s, 2, 0
  {
    hide Producible, Writable, PrintHead, PrintArms, ParseAssignment, ParseArms;
    var end := Put(RightBrace, "}", k);
    var behind := Put(LeftBrace, "{", PrintArms(show, s, s.arms, 0, end));
    HeadParses(m, show, c, s.subject, behind);
    var next := ParseAssignment(m, c, false).cursor;
    ArmsParse(m, show, next.Next(), s, s.arms, 0, [], end);
    assert [] + s.arms[0..] == s.arms;
  }

  // ----- every statement -----

  /** The round trip of one statement in front of anything but an `else`. */
  lemma {:induction false} StmtParses(m: Mode, show: FloatPrinter, c: Cursor, s: Stmt, k: Stream)
    requires !m.spans && Writable(m, show, s) && c.rest == PrintStmt(show, s, k) && !k.Starts(ElseWord)
    ensures Yields(ParseDeclaration(m, c, true), s, k)
    decreases s, 3
  {
    hide ParseDeclarationInner, ParseDeclaration;
    if s.TypeDecl? || s.Break? || s.Continue? || s.Let? || s.Return? || s.ExprStmt? {
      hide Writable, PrintStmt;
      SimpleParses(m, show, c, s, k);
    } else {
      BodiedParses(m, show, c, s, k);
    }
    StaysBare(m, c, s, k);
  }

  /** Keyword and parts of a statement with a body. */
  lemma BodiedFacts(m: Mode, show: FloatPrinter, c: Cursor, s: Stmt, k: Stream)
    requires Writable(m, show, s) && c.rest == PrintStmt(show, s, k)
    ensures s.While? ==>
              && c.Starts(WhileWord) && Producible(m, show, s.condition) && s.body.Block? && Writable(m, show, s.body)
              && c.Next().rest == PrintHead(show, s.condition, PrintStmt(show, s.body, k))
    ensures s.For? || s.Parallel? ==>
              && c.Starts(if s.For? then ForWord else ParallelWord)
              && Producible(m, show, s.iterable) && s.body.Block? && Writable(m, show, s.body)
              && c.Next().rest == PutName(s.variable, Put(InWord, "in", PrintHead(show, s.iterable, PrintStmt(show, s.body, k))))
    ensures s.Function? ==>
              && c.Starts(FnWord) && PlainParameters(s.parameters) && PlainOptionalType(s.result) && s.body.Block? && Writable(m, show, s.body)
              && c.Next().rest == PutName(s.name, Put(LeftParen, "(", PrintParameters(s.parameters, 0,
                                          PrintType(Arrow, s.result, PrintStmt(show, s.body, k)))))
    ensures s.Match? ==>
              && c.Starts(MatchWord) && Producible(m, show, s.subject) && ArmsWritable(m, show, s.arms)
              && c.Next().rest == PrintHead(show, s.subject, Put(LeftBrace, "{", PrintArms(show, s, s.arms, 0, Put(RightBrace, "}", k))))
    ensures s.If? ==> c.Starts(IfWord) && Put(IfWord, "if", c.Next().rest) == PrintStmt(show, s, k)
    ensures s.Block? ==> c.Starts(LeftBrace)
  {
    hide Producible, PrintHead, PrintParameters, PrintType, PrintStmts, PrintArms;
  }

  lemma {:induction false} BodiedParses(m: Mode, show: FloatPrinter, c: Cursor, s: Stmt, k: Stream)
    requires !m.spans && Writable(m, show, s) && c.rest == PrintStmt(show, s, k) && !k.Starts(ElseWord)
    requires s.Block? || s.If? || s.While? || s.For? || s.Parallel? || s.Function? || s.Match?
    ensures Yields(ParseDeclarationInner(m, c, true), s, k)
    decreases s, 2, 2
  {
    hide Producible, PrintHead, PrintParameters, PrintType, PrintStmts, PrintArms, PrintStmt, Writable, ParseDeclarationInner, ParseStatement;
    hide ParseFunction, ParseBlock, ParseIf, ParseWhile, ParseMatch, ParseFor, ArmsWritable, Put, PutName;
    BodiedFacts(m, show, c, s, k);
    DeclarationDecides(m, c);
    StatementDecides(m, c);
    match s
    case Block(_) => BlockParses(m, show, c, s, k);
    case If(_, _, _) => IfParses(m, show, c.Next(), s, k);
    case While(_, _) => WhileParses(m, show, c.Next(), s, k);
    case For(_, _, _) => ForParses(m, show, c.Next(), s, k);
    case Parallel(_, _, _) => ForParses(m, show, c.Next(), s, k);
    case Function(_, _, _, _) => FunctionParses(m, show, c.Next(), s, k);
    case Match(_, _) => MatchParses(m, show, c.Next(), s, k);
  }

  /** A printed program parses to itself and uses everything. */
  lemma ProgramParsePrint(m: Mode, show: FloatPrinter, stmts: seq<Stmt>, eof: Token)
    requires !m.spans && AllWritable(m, show, stmts)
    ensures Yields(ParseMany(m, Cursor(None, PrintProgram(show, stmts, End(eof))), true, false, []), stmts, End(eof))
  {
    hide Writable, PrintStmt, ParseMany;
    StmtsParse(m, show, Cursor(None, PrintProgram(show, stmts, End(eof))), Block(stmts), stmts, 0, false, [], End(eof));
    assert [] + stmts[0..] == stmts;
  }
}
