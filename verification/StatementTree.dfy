/**
 * The location tree above expressions (src/parser/statement.rs). If the tokens
 * are ordered by position, every statement of a list carries exactly one
 * location, from its first token to its last, siblings follow each other
 * without overlap, and whatever a statement contains, be it an expression, a
 * type annotation, a pattern or a body, lies inside its range. The block of a
 * body and the `if` of an `else if` carry no location of their own.
 */
module StatementTree {
  import opened Wrappers
  import opened Source
  import opened Ast
  import opened Tokens
  import opened Grammar
  import opened SpanTree
  import opened Declarations

  predicate AnnotationWithin(a: TypeAnnotation, lo: Position, hi: Position) {
    a.span.Some? && lo.AtMost(a.span.value.start) && a.span.value.end.AtMost(hi)
  }

  predicate OptionalWithin(a: Option<TypeAnnotation>, lo: Position, hi: Position) {
    a.Some? ==> AnnotationWithin(a.value, lo, hi)
  }

  predicate PatternWithin(p: Pattern, lo: Position, hi: Position) {
    p.LocatedPattern? && !p.inner.LocatedPattern? && lo.AtMost(p.span.start) && p.span.end.AtMost(hi)
  }

  predicate TypeFieldsWithin(fields: seq<TypeField>, lo: Position, hi: Position) {
    forall i | 0 <= i < |fields| :: AnnotationWithin(fields[i].annotation, lo, hi)
  }

  predicate ParametersWithin(parameters: seq<Parameter>, lo: Position, hi: Position) {
    forall i | 0 <= i < |parameters| :: OptionalWithin(parameters[i].annotation, lo, hi)
  }

  /** Siblings follow each other. */
  predicate InOrder(statements: seq<Stmt>) {
    && (forall i | 0 <= i < |statements| :: statements[i].LocatedStmt?)
    && forall i | 0 <= i < |statements| - 1 :: statements[i].span.end.AtMost(statements[i + 1].span.start)
  }

  predicate Inside(s: Stmt, lo: Position, hi: Position)
    decreases s
  {
    match s
    case LocatedStmt(span, inner) =>
      && lo.AtMost(span.start) && span.end.AtMost(hi)
      && !inner.LocatedStmt? && Inside(inner, span.start, span.end)
    case Block(statements) => InOrder(statements) && forall i | 0 <= i < |statements| :: Inside(statements[i], lo, hi)
    case TypeDecl(_, fields) => TypeFieldsWithin(fields, lo, hi)
    case Let(_, annotation, value) => OptionalWithin(annotation, lo, hi) && Within(value, lo, hi)
    case ExprStmt(e) => Within(e, lo, hi)
    case If(condition, thenBranch, elseBranch) =>
      && Within(condition, lo, hi)
      && thenBranch.Block? && Inside(thenBranch, lo, hi)
      && (elseBranch.Some? ==> (elseBranch.value.Block? || elseBranch.value.If?) && Inside(elseBranch.value, lo, hi))
    case While(condition, body) => Within(condition, lo, hi) && body.Block? && Inside(body, lo, hi)
    case For(_, iterable, body) => Within(iterable, lo, hi) && body.Block? && Inside(body, lo, hi)
    case Parallel(_, iterable, body) => Within(iterable, lo, hi) && body.Block? && Inside(body, lo, hi)
    case Match(subject, arms) =>
      && Within(subject, lo, hi)
      && forall i | 0 <= i < |arms| :: PatternWithin(arms[i].pattern, lo, hi) && arms[i].body.Block? && Inside(arms[i].body, lo, hi)
    case Function(_, parameters, result, body) =>
      && ParametersWithin(parameters, lo, hi) && OptionalWithin(result, lo, hi)
      && body.Block? && Inside(body, lo, hi)
    case Return(e) => e.Some? ==> Within(e.value, lo, hi)
    case _ => true
  }

  predicate AllInside(statements: seq<Stmt>, lo: Position, hi: Position) {
    forall i | 0 <= i < |statements| :: Inside(statements[i], lo, hi)
  }

  predicate ArmWithin(arm: MatchArm, lo: Position, hi: Position) {
    PatternWithin(arm.pattern, lo, hi) && arm.body.Block? && Inside(arm.body, lo, hi)
  }

  predicate ArmsWithin(arms: seq<MatchArm>, lo: Position, hi: Position) {
    forall i | 0 <= i < |arms| :: ArmWithin(arms[i], lo, hi)
  }

  // ----- widening the range -----

  lemma {:induction false} Widen(s: Stmt, lo: Position, hi: Position, lo': Position, hi': Position)
    requires Inside(s, lo, hi) && lo'.AtMost(lo) && hi.AtMost(hi')
    ensures Inside(s, lo', hi')
    decreases s
  {
    hide Tree;
    match s
    case Block(statements) =>
      forall i | 0 <= i < |statements|
        ensures Inside(statements[i], lo', hi')
      {
        Widen(statements[i], lo, hi, lo', hi');
      }
    case If(_, thenBranch, elseBranch) =>
      Widen(thenBranch, lo, hi, lo', hi');
      if elseBranch.Some? {
        Widen(elseBranch.value, lo, hi, lo', hi');
      }
    case While(_, body) => Widen(body, lo, hi, lo', hi');
    case For(_, _, body) => Widen(body, lo, hi, lo', hi');
    case Parallel(_, _, body) => Widen(body, lo, hi, lo', hi');
    case Function(_, _, _, body) => Widen(body, lo, hi, lo', hi');
    case Match(_, arms) =>
      forall i | 0 <= i < |arms|
        ensures Inside(arms[i].body, lo', hi')
      {
        Widen(arms[i].body, lo, hi, lo', hi');
      }
    case _ =>
  }

  lemma WidenStatements(statements: seq<Stmt>, lo: Position, hi: Position, hi': Position)
    requires AllInside(statements, lo, hi) && hi.AtMost(hi')
    ensures AllInside(statements, lo, hi')
  {
    hide Inside;
    forall i | 0 <= i < |statements|
      ensures Inside(statements[i], lo, hi')
    {
      Widen(statements[i], lo, hi, lo, hi');
    }
  }

  lemma WidenArms(arms: seq<MatchArm>, lo: Position, hi: Position, hi': Position)
    requires ArmsWithin(arms, lo, hi) && hi.AtMost(hi')
    ensures ArmsWithin(arms, lo, hi')
  {
    hide Inside;
    forall i | 0 <= i < |arms|
      ensures ArmWithin(arms[i], lo, hi')
    {
      assert ArmWithin(arms[i], lo, hi);
      Widen(arms[i].body, lo, hi, lo, hi');
    }
  }

  // ----- one step of the cursor -----

  /** Progress seen from a fixed place `lo` behind the cursor `c`. */
  predicate Onward(lo: Position, c: Cursor, next: Cursor) {
    Reached(lo, next) && c.LastEnd().AtMost(next.LastEnd())
  }

  lemma OnwardTwice(lo: Position, a: Cursor, b: Cursor, c: Cursor)
    requires Onward(lo, a, b) && Onward(lo, b, c)
    ensures Onward(lo, a, c)
  {
    hide Ordered;
    Transitive(a.LastEnd(), b.LastEnd(), c.LastEnd());
  }

  lemma StepOnward(lo: Position, c: Cursor)
    requires Reached(lo, c) && c.rest.More?
    ensures Onward(lo, c, c.Next()) && lo.AtMost(c.rest.head.span.start) && c.Next().LastEnd() == c.rest.head.span.end
  {
    SkipReached(lo, c);
  }

  predicate ExprFrom(lo: Position, c: Cursor, r: Parse<Expr>) {
    r.Parsed? ==> Onward(lo, c, r.cursor) && Within(r.value, lo, r.cursor.LastEnd())
  }

  lemma ExpressionFrom(m: Mode, c: Cursor, cons: bool, lo: Position)
    requires m.spans && Reached(lo, c)
    ensures ExprFrom(lo, c, ParseAssignment(m, c, cons))
  {
    hide ParseAssignment, Tree, OrderedStream, Within;
    ReachedOrdered(lo, c);
    AssignmentSpans(m, c, cons);
    var r := ParseAssignment(m, c, cons);
    if r.Parsed? {
      LaterWithin(lo, c, r);
      EndsLater(c, r);
    }
  }

  predicate StmtFrom(lo: Position, c: Cursor, r: Parse<Stmt>) {
    r.Parsed? ==> Onward(lo, c, r.cursor) && !r.value.LocatedStmt? && Inside(r.value, lo, r.cursor.LastEnd())
  }

  /** What `ParseStatement` and the like promise when the cursor may stand at the start of the input. */
  predicate StmtSpanned(start: Position, r: Parse<Stmt>) {
    r.Parsed? ==> Reached(start, r.cursor) && !r.value.LocatedStmt? && Inside(r.value, start, r.cursor.LastEnd())
  }

  lemma SpannedFrom(lo: Position, c: Cursor, r: Parse<Stmt>)
    requires Reached(lo, c) && StmtSpanned(Start(c), r)
    ensures StmtFrom(lo, c, r)
  {
    hide Inside, OrderedStream;
    if r.Parsed? {
      Transitive(lo, c.LastEnd(), Start(c));
      Transitive(c.LastEnd(), Start(c), r.cursor.LastEnd());
      Transitive(lo, Start(c), r.cursor.LastEnd());
      Widen(r.value, Start(c), r.cursor.LastEnd(), lo, r.cursor.LastEnd());
    }
  }

  // ----- annotations -----

  lemma TypeNameFrom(m: Mode, c: Cursor, lo: Position)
    requires m.spans && Reached(lo, c)
    ensures var r := ParseTypeName(m, c);
            r.Parsed? ==> Onward(lo, c, r.cursor) && AnnotationWithin(r.value, lo, r.cursor.LastEnd())
  {
    if c.rest.More? {
      StepOnward(lo, c);
    }
  }

  lemma AnnotationFrom(m: Mode, c: Cursor, lo: Position)
    requires m.spans && Reached(lo, c)
    ensures var r := ParseAnnotation(m, c);
            r.Parsed? ==> Onward(lo, c, r.cursor) && OptionalWithin(r.value, lo, r.cursor.LastEnd())
  {
    hide ParseTypeName, Ordered, AnnotationWithin;
    if c.Starts(Colon) {
      StepOnward(lo, c);
      TypeNameFrom(m, c.Next(), lo);
      if ParseTypeName(m, c.Next()).Parsed? {
        OnwardTwice(lo, c, c.Next(), ParseTypeName(m, c.Next()).cursor);
      }
    }
  }

  lemma ResultFrom(m: Mode, c: Cursor, lo: Position)
    requires m.spans && Reached(lo, c)
    ensures var r := ParseResult(m, c);
            r.Parsed? ==> Onward(lo, c, r.cursor) && OptionalWithin(r.value, lo, r.cursor.LastEnd())
  {
    hide ParseTypeName, Ordered, AnnotationWithin;
    if c.Starts(Arrow) {
      StepOnward(lo, c);
      TypeNameFrom(m, c.Next(), lo);
      if ParseTypeName(m, c.Next()).Parsed? {
        OnwardTwice(lo, c, c.Next(), ParseTypeName(m, c.Next()).cursor);
      }
    }
  }

  lemma TypeFieldFrom(m: Mode, c: Cursor, lo: Position)
    requires m.spans && Reached(lo, c)
    ensures var r := ParseTypeField(m, c);
            r.Parsed? ==> Onward(lo, c, r.cursor) && AnnotationWithin(r.value.annotation, lo, r.cursor.LastEnd())
  {
    hide ParseTypeName, Ordered, AnnotationWithin;
    if ParseTypeField(m, c).Failed? { return; }
    StepOnward(lo, c);
    StepOnward(lo, c.Next());
    var here := c.Next().Next();
    TypeNameFrom(m, here, lo);
    OnwardTwice(lo, c, c.Next(), here);
    OnwardTwice(lo, c, here, ParseTypeName(m, here).cursor);
  }

  lemma {:induction false} TypeFieldsFrom(m: Mode, c: Cursor, done: seq<TypeField>, lo: Position)
    requires m.spans && Reached(lo, c) && TypeFieldsWithin(done, lo, c.LastEnd())
    ensures var r := ParseTypeFields(m, c, done);
            r.Parsed? ==> Onward(lo, c, r.cursor) && TypeFieldsWithin(r.value, lo, r.cursor.LastEnd())
    decreases c.Length()
  {
    hide ParseTypeField, Ordered;
    TypeFieldFrom(m, c, lo);
    var field := ParseTypeField(m, c);
    if field.Failed? { return; }
    var next, more := field.cursor, done + [field.value];
    var whole := ParseTypeFields(m, c, done);
    if next.Starts(Comma) {
      StepOnward(lo, next);
      OnwardTwice(lo, c, next, next.Next());
      if !next.Next().Starts(RightBrace) {
        TypeFieldsFrom(m, next.Next(), more, lo);
        if whole.Parsed? {
          OnwardTwice(lo, c, next.Next(), whole.cursor);
        }
        return;
      }
    }
    var last := if next.Starts(Comma) then next.Next() else next;
    if whole.Parsed? {
      StepOnward(lo, last);
      OnwardTwice(lo, c, last, last.Next());
    }
  }

  /** A name and a brace, and then the fields, if there are any. */
  lemma TypeDeclShape(m: Mode, c: Cursor)
    requires ParseTypeDecl(m, c).Parsed?
    ensures c.rest.More? && c.Next().rest.More?
    ensures var r, inside := ParseTypeDecl(m, c), c.Next().Next();
            && r.value.TypeDecl?
            && if inside.Starts(RightBrace) then r.value.fields == [] && r.cursor == inside.Next()
               else ParseTypeFields(m, inside, []) == Parsed(r.value.fields, r.cursor)
  {
    hide ParseTypeFields;
  }

  lemma TwoOnward(lo: Position, c: Cursor)
    requires Reached(lo, c) && c.rest.More? && c.Next().rest.More?
    ensures Onward(lo, c, c.Next().Next())
  {
    StepOnward(lo, c);
    hide Ordered, Position.AtMost;
    StepOnward(lo, c.Next());
    OnwardTwice(lo, c, c.Next(), c.Next().Next());
  }

  lemma FieldsInside(lo: Position, c: Cursor, r: Parse<Stmt>)
    requires r.Parsed? && r.value.TypeDecl? && Onward(lo, c, r.cursor)
    requires TypeFieldsWithin(r.value.fields, lo, r.cursor.LastEnd())
    ensures StmtFrom(lo, c, r)
  {
    hide Onward, TypeFieldsWithin, Cursor.LastEnd;
  }

  lemma NoFieldsWithin(lo: Position, hi: Position)
    ensures TypeFieldsWithin([], lo, hi)
  {
  }

  lemma TypeDeclFrom(m: Mode, c: Cursor, lo: Position)
    requires m.spans && Reached(lo, c)
    ensures StmtFrom(lo, c, ParseTypeDecl(m, c))
  {
    hide ParseTypeDecl, ParseTypeFields, Ordered, TypeFieldsWithin, Position.AtMost, Inside, Cursor.LastEnd;
    var r := ParseTypeDecl(m, c);
    if r.Failed? { return; }
    TypeDeclShape(m, c);
    var inside := c.Next().Next();
    TwoOnward(lo, c);
    if inside.Starts(RightBrace) {
      StepOnward(lo, inside);
      NoFieldsWithin(lo, r.cursor.LastEnd());
    } else {
      NoFieldsWithin(lo, inside.LastEnd());
      TypeFieldsFrom(m, inside, [], lo);
    }
    OnwardTwice(lo, c, inside, r.cursor);
    FieldsInside(lo, c, r);
  }

  lemma ParameterFrom(m: Mode, c: Cursor, lo: Position)
    requires m.spans && Reached(lo, c)
    ensures var r := ParseParameter(m, c);
            r.Parsed? ==> Onward(lo, c, r.cursor) && OptionalWithin(r.value.annotation, lo, r.cursor.LastEnd())
  {
    hide ParseAnnotation, Ordered, AnnotationWithin;
    if ParseParameter(m, c).Failed? { return; }
    StepOnward(lo, c);
    AnnotationFrom(m, c.Next(), lo);
    OnwardTwice(lo, c, c.Next(), ParseAnnotation(m, c.Next()).cursor);
  }

  lemma {:induction false} ParametersFrom(m: Mode, c: Cursor, done: seq<Parameter>, lo: Position)
    requires m.spans && Reached(lo, c) && ParametersWithin(done, lo, c.LastEnd())
    ensures var r := ParseParameters(m, c, done);
            r.Parsed? ==> Onward(lo, c, r.cursor) && ParametersWithin(r.value, lo, r.cursor.LastEnd())
    decreases c.Length()
  {
    hide ParseParameter, Ordered;
    ParameterFrom(m, c, lo);
    var parameter := ParseParameter(m, c);
    if parameter.Failed? { return; }
    var next, more := parameter.cursor, done + [parameter.value];
    var whole := ParseParameters(m, c, done);
    if next.Starts(Comma) {
      StepOnward(lo, next);
      OnwardTwice(lo, c, next, next.Next());
      if !next.Next().Starts(RightParen) {
        ParametersFrom(m, next.Next(), more, lo);
        if whole.Parsed? {
          OnwardTwice(lo, c, next.Next(), whole.cursor);
        }
        return;
      }
    }
    var last := if next.Starts(Comma) then next.Next() else next;
    if whole.Parsed? {
      StepOnward(lo, last);
      OnwardTwice(lo, c, last, last.Next());
    }
  }

  lemma ParameterListFrom(m: Mode, c: Cursor, lo: Position)
    requires m.spans && Reached(lo, c)
    ensures var r := ParseParameterList(m, c);
            r.Parsed? ==> Onward(lo, c, r.cursor) && ParametersWithin(r.value, lo, r.cursor.LastEnd())
  {
    hide ParseParameters, Ordered;
    var r := ParseParameterList(m, c);
    if r.Failed? { return; }
    StepOnward(lo, c);
    if c.Next().Starts(RightParen) {
      StepOnward(lo, c.Next());
    } else {
      ParametersFrom(m, c.Next(), [], lo);
    }
    OnwardTwice(lo, c, c.Next(), r.cursor);
  }

  lemma SignatureFrom(m: Mode, c: Cursor, lo: Position)
    requires m.spans && Reached(lo, c)
    ensures var r := ParseSignature(m, c);
            r.Parsed? ==>
              && Onward(lo, c, r.cursor)
              && ParametersWithin(r.value.parameters, lo, r.cursor.LastEnd())
              && OptionalWithin(r.value.result, lo, r.cursor.LastEnd())
  {
    hide ParseParameterList, ParseResult, Ordered;
    ParameterListFrom(m, c, lo);
    var parameters := ParseParameterList(m, c);
    if parameters.Failed? { return; }
    ResultFrom(m, parameters.cursor, lo);
    var result := ParseResult(m, parameters.cursor);
    if result.Parsed? {
      OnwardTwice(lo, c, parameters.cursor, result.cursor);
    }
  }

  // ----- statements without bodies -----

  lemma InitializerFrom(m: Mode, c: Cursor, cons: bool, lo: Position)
    requires m.spans && Reached(lo, c)
    ensures ExprFrom(lo, c, ParseInitializer(m, c, cons))
  {
    hide ParseAssignment, Ordered, Tree;
    if ParseInitializer(m, c, cons).Failed? { return; }
    StepOnward(lo, c);
    ExpressionFrom(m, c.Next(), cons, lo);
    var end := ParseAssignment(m, c.Next(), cons).cursor;
    StepOnward(lo, end);
    OnwardTwice(lo, c, c.Next(), end);
    OnwardTwice(lo, c, end, end.Next());
  }

  lemma LetFrom(m: Mode, c: Cursor, cons: bool, lo: Position)
    requires m.spans && Reached(lo, c)
    ensures StmtFrom(lo, c, ParseLet(m, c, cons))
  {
    hide ParseParameter, ParseInitializer, Ordered, Tree;
    if ParseLet(m, c, cons).Failed? { return; }
    ParameterFrom(m, c, lo);
    var here := ParseParameter(m, c).cursor;
    InitializerFrom(m, here, cons, lo);
    OnwardTwice(lo, c, here, ParseInitializer(m, here, cons).cursor);
  }

  lemma ReturnFrom(m: Mode, c: Cursor, cons: bool, lo: Position)
    requires m.spans && Reached(lo, c)
    ensures StmtFrom(lo, c, ParseReturn(m, c, cons))
  {
    hide ParseAssignment, Ordered, Tree;
    if ParseReturn(m, c, cons).Failed? { return; }
    if c.Starts(Semicolon) {
      StepOnward(lo, c);
    } else {
      ExpressionFrom(m, c, cons, lo);
      var end := ParseAssignment(m, c, cons).cursor;
      StepOnward(lo, end);
      OnwardTwice(lo, c, end, end.Next());
    }
  }

  /** An expression statement may be the first of the program. */
  lemma ExpressionStmtSpans(m: Mode, c: Cursor, cons: bool)
    requires m.spans && Ordered(c)
    ensures StmtSpanned(Start(c), ParseExpressionStmt(m, c, cons))
  {
    hide ParseAssignment, Tree, OrderedStream;
    var r := ParseExpressionStmt(m, c, cons);
    if r.Failed? { return; }
    AssignmentSpans(m, c, cons);
    var e := ParseAssignment(m, c, cons);
    WholeWithin(Start(c), e);
    StepOnward(Start(c), e.cursor);
    KeepsWithin(e.value, Start(c), e.cursor.LastEnd(), r.cursor.LastEnd());
  }

  lemma LoopControlFrom(c: Cursor, lo: Position)
    requires Reached(lo, c.Next()) && (c.Starts(BreakWord) || c.Starts(ContinueWord))
    ensures StmtFrom(lo, c.Next(), ParseLoopControl(c))
  {
    hide Ordered;
    if ParseLoopControl(c).Parsed? {
      StepOnward(lo, c.Next());
    }
  }

  // ----- statements with bodies -----

  predicate ListFrom(lo: Position, c: Cursor, r: Parse<seq<Stmt>>) {
    r.Parsed? ==>
      && (c.previous.Some? || r.value != [] ==> Reached(lo, r.cursor))
      && (c.previous.Some? ==> c.LastEnd().AtMost(r.cursor.LastEnd()))
      && AllInside(r.value, lo, r.cursor.LastEnd()) && InOrder(r.value)
  }

  /** One more declaration behind those already read. */
  lemma AddStatement(done: seq<Stmt>, s: Stmt, lo: Position, c: Cursor, next: Cursor)
    requires done != [] ==> Reached(lo, c)
    requires Ordered(c) && lo.AtMost(Start(c)) && Reached(Start(c), next)
    requires AllInside(done, lo, c.LastEnd()) && InOrder(done)
    requires s.LocatedStmt? && s.span == Span(Start(c), next.LastEnd()) && !s.inner.LocatedStmt?
    requires Inside(s.inner, s.span.start, s.span.end)
    ensures AllInside(done + [s], lo, next.LastEnd()) && InOrder(done + [s]) && Reached(lo, next)
    ensures c.previous.Some? ==> c.LastEnd().AtMost(next.LastEnd())
  {
    hide OrderedStream;
    Transitive(lo, Start(c), next.LastEnd());
    assert Inside(s, lo, next.LastEnd());
    hide Inside;
    if c.previous.Some? {
      Transitive(c.LastEnd(), Start(c), next.LastEnd());
    }
    if done != [] {
      WidenStatements(done, lo, c.LastEnd(), next.LastEnd());
      LastBefore(done, lo, c);
    }
  }

  lemma LastBefore(done: seq<Stmt>, lo: Position, c: Cursor)
    requires done != [] && InOrder(done) && Reached(lo, c) && AllInside(done, lo, c.LastEnd())
    ensures done[|done| - 1].span.end.AtMost(Start(c))
  {
    hide OrderedStream;
    assert Inside(done[|done| - 1], lo, c.LastEnd());
    Transitive(done[|done| - 1].span.end, c.LastEnd(), Start(c));
  }

  lemma {:induction false} ManySpans(m: Mode, c: Cursor, cons: bool, block: bool, done: seq<Stmt>, lo: Position)
    requires m.spans && Ordered(c) && lo.AtMost(Start(c))
    requires done != [] || c.previous.Some? ==> Reached(lo, c)
    requires AllInside(done, lo, c.LastEnd()) && InOrder(done)
    ensures ListFrom(lo, c, ParseMany(m, c, cons, block, done))
    decreases c.Length(), 22
  {
    hide ParseDeclaration, Inside, Ordered, AllInside, InOrder;
    if c.rest.End? || (block && c.Starts(RightBrace)) { return; }
    DeclarationSpans(m, c, cons);
    var s := ParseDeclaration(m, c, cons);
    if s.Failed? { return; }
    var next := s.cursor;
    AddStatement(done, s.value, lo, c, next);
    ReachedOrdered(lo, next);
    BeforeNext(lo, next);
    ManySpans(m, next, cons, block, done + [s.value], lo);
    var r := ParseMany(m, c, cons, block, done);
    if r.Parsed? && c.previous.Some? {
      Transitive(c.LastEnd(), next.LastEnd(), r.cursor.LastEnd());
    }
  }

  lemma BeforeNext(lo: Position, c: Cursor)
    requires Reached(lo, c)
    ensures lo.AtMost(Start(c))
  {
    hide OrderedStream;
  }

  lemma {:induction false} DeclarationSpans(m: Mode, c: Cursor, cons: bool)
    requires m.spans && Ordered(c) && c.rest.More?
    ensures var r := ParseDeclaration(m, c, cons);
            r.Parsed? ==>
              && Reached(Start(c), r.cursor)
              && r.value.LocatedStmt? && r.value.span == Span(Start(c), r.cursor.LastEnd())
              && !r.value.inner.LocatedStmt? && Inside(r.value.inner, r.value.span.start, r.value.span.end)
    decreases c.Length(), 21
  {
    hide ParseDeclarationInner, Inside, Ordered;
    InnerSpans(m, c, cons);
  }

  lemma {:induction false} InnerSpans(m: Mode, c: Cursor, cons: bool)
    requires m.spans && Ordered(c) && c.rest.More?
    ensures StmtSpanned(Start(c), ParseDeclarationInner(m, c, cons))
    decreases c.Length(), 20
  {
    hide ParseTypeDecl, ParseFunction, ParseLet, ParseStatement, Inside, Ordered;
    NextOrdered(c);
    if c.Starts(TypeWord) {
      TypeDeclFrom(m, c.Next(), Start(c));
    } else if c.Starts(FnWord) {
      FunctionFrom(m, c.Next(), cons, Start(c));
    } else if c.Starts(LetWord) {
      LetFrom(m, c.Next(), cons, Start(c));
    } else {
      StatementSpans(m, c, cons);
    }
  }

  lemma {:induction false} FunctionFrom(m: Mode, c: Cursor, cons: bool, lo: Position)
    requires m.spans && Reached(lo, c)
    ensures StmtFrom(lo, c, ParseFunction(m, c, cons))
    decreases c.Length(), 20
  {
    hide ParseSignature, ParseBlock, Ordered;
    if ParseFunction(m, c, cons).Failed? { return; }
    StepOnward(lo, c);
    var next := c.Next();
    SignatureFrom(m, next, lo);
    var before := ParseSignature(m, next).cursor;
    BlockFrom(m, before, cons, lo);
    OnwardTwice(lo, c, next, before);
    OnwardTwice(lo, c, before, ParseBlock(m, before, cons).cursor);
  }

  lemma {:induction false} BlockSpans(m: Mode, c: Cursor, cons: bool)
    requires m.spans && Ordered(c)
    ensures StmtSpanned(Start(c), ParseBlock(m, c, cons))
    ensures ParseBlock(m, c, cons).Parsed? ==> ParseBlock(m, c, cons).value.Block?
    decreases c.Length(), 18
  {
    hide ParseMany, Ordered;
    var r := ParseBlock(m, c, cons);
    if r.Failed? { return; }
    NextOrdered(c);
    var inside := c.Next();
    ReachedOrdered(Start(c), inside);
    BeforeNext(Start(c), inside);
    ManySpans(m, inside, cons, true, [], Start(c));
    var list := ParseMany(m, inside, cons, true, []);
    StepOnward(Start(c), list.cursor);
    WidenStatements(list.value, Start(c), list.cursor.LastEnd(), r.cursor.LastEnd());
  }

  lemma {:induction false} BlockFrom(m: Mode, c: Cursor, cons: bool, lo: Position)
    requires m.spans && Reached(lo, c)
    ensures StmtFrom(lo, c, ParseBlock(m, c, cons))
    ensures ParseBlock(m, c, cons).Parsed? ==> ParseBlock(m, c, cons).value.Block?
    decreases c.Length(), 19
  {
    hide ParseBlock, Inside, Ordered;
    ReachedOrdered(lo, c);
    BlockSpans(m, c, cons);
    SpannedFrom(lo, c, ParseBlock(m, c, cons));
  }

  lemma {:induction false} StatementSpans(m: Mode, c: Cursor, cons: bool)
    requires m.spans && Ordered(c) && c.rest.More?
    ensures StmtSpanned(Start(c), ParseStatement(m, c, cons))
    decreases c.Length(), 19
  {
    hide ParseLoopControl, ParseBlock, ParseIf, ParseWhile, ParseMatch, ParseFor, ParseReturn, ParseExpressionStmt, Inside, Ordered;
    NextOrdered(c);
    var lo := Start(c);
    if c.Starts(BreakWord) || c.Starts(ContinueWord) {
      LoopControlFrom(c, lo);
    } else if c.Starts(LeftBrace) {
      BlockSpans(m, c, cons);
    } else if c.Starts(IfWord) {
      IfFrom(m, c.Next(), cons, lo);
    } else if c.Starts(WhileWord) {
      WhileFrom(m, c.Next(), cons, lo);
    } else if c.Starts(MatchWord) {
      MatchFrom(m, c.Next(), cons, lo);
    } else if c.Starts(ForWord) {
      ForFrom(m, c.Next(), cons, false, lo);
    } else if c.Starts(ParallelWord) {
      ForFrom(m, c.Next(), cons, true, lo);
    } else if c.Starts(ReturnWord) {
      ReturnFrom(m, c.Next(), cons, lo);
    } else {
      ExpressionStmtSpans(m, c, cons);
    }
  }

  lemma {:induction false} IfFrom(m: Mode, c: Cursor, cons: bool, lo: Position)
    requires m.spans && Reached(lo, c)
    ensures StmtFrom(lo, c, ParseIf(m, c, cons)) && (ParseIf(m, c, cons).Parsed? ==> ParseIf(m, c, cons).value.If?)
    decreases c.Length(), 20
  {
    hide ParseAssignment, ParseBlock, ParseElse, Ordered, Tree;
    if ParseIf(m, c, cons).Failed? { return; }
    ExpressionFrom(m, c, false, lo);
    var condition := ParseAssignment(m, c, false);
    BlockFrom(m, condition.cursor, cons, lo);
    var thenBranch := ParseBlock(m, condition.cursor, cons);
    ElseFrom(m, thenBranch.cursor, cons, lo);
    var end := ParseElse(m, thenBranch.cursor, cons).cursor;
    OnwardTwice(lo, condition.cursor, thenBranch.cursor, end);
    OnwardTwice(lo, c, condition.cursor, end);
    Widen(thenBranch.value, lo, thenBranch.cursor.LastEnd(), lo, end.LastEnd());
  }

  lemma {:induction false} ElseFrom(m: Mode, c: Cursor, cons: bool, lo: Position)
    requires m.spans && Reached(lo, c)
    ensures var r := ParseElse(m, c, cons);
            r.Parsed? ==>
              && Onward(lo, c, r.cursor)
              && (r.value.Some? ==> (r.value.value.Block? || r.value.value.If?) && Inside(r.value.value, lo, r.cursor.LastEnd()))
    decreases c.Length(), 21
  {
    hide ParseIf, ParseBlock, Inside, Ordered;
    if !c.Starts(ElseWord) { return; }
    var r := ParseElse(m, c, cons);
    if r.Failed? { return; }
    StepOnward(lo, c);
    if c.Next().Starts(IfWord) {
      StepOnward(lo, c.Next());
      IfFrom(m, c.Next().Next(), cons, lo);
      OnwardTwice(lo, c.Next(), c.Next().Next(), r.cursor);
    } else {
      BlockFrom(m, c.Next(), cons, lo);
    }
    OnwardTwice(lo, c, c.Next(), r.cursor);
  }

  lemma {:induction false} WhileFrom(m: Mode, c: Cursor, cons: bool, lo: Position)
    requires m.spans && Reached(lo, c)
    ensures StmtFrom(lo, c, ParseWhile(m, c, cons))
    decreases c.Length(), 20
  {
    hide ParseAssignment, ParseBlock, Ordered, Tree;
    if ParseWhile(m, c, cons).Failed? { return; }
    ExpressionFrom(m, c, false, lo);
    var next := ParseAssignment(m, c, false).cursor;
    BlockFrom(m, next, cons, lo);
    OnwardTwice(lo, c, next, ParseBlock(m, next, cons).cursor);
  }

  lemma ForShape(m: Mode, c: Cursor, cons: bool, parallel: bool)
    requires ParseFor(m, c, cons, parallel).Parsed?
    ensures c.rest.More? && c.Next().rest.More?
    ensures var r, iterable := ParseFor(m, c, cons, parallel), ParseAssignment(m, c.Next().Next(), false);
            && iterable.Parsed?
            && (if parallel then r.value.Parallel? else r.value.For?) && r.value.iterable == iterable.value
            && ParseBlock(m, iterable.cursor, cons) == Parsed(r.value.body, r.cursor)
  {
    hide ParseAssignment, ParseBlock;
  }

  lemma LoopInside(lo: Position, c: Cursor, r: Parse<Stmt>, mid: Position)
    requires r.Parsed? && (r.value.For? || r.value.Parallel?) && Onward(lo, c, r.cursor)
    requires Within(r.value.iterable, lo, mid) && mid.AtMost(r.cursor.LastEnd())
    requires r.value.body.Block? && Inside(r.value.body, lo, r.cursor.LastEnd())
    ensures StmtFrom(lo, c, r)
  {
    hide Onward, Tree, Cursor.LastEnd;
  }

  lemma {:induction false} ForFrom(m: Mode, c: Cursor, cons: bool, parallel: bool, lo: Position)
    requires m.spans && Reached(lo, c)
    ensures StmtFrom(lo, c, ParseFor(m, c, cons, parallel))
    decreases c.Length(), 20
  {
    hide ParseFor, ParseAssignment, ParseBlock, Ordered, Within, Inside, Position.AtMost, Cursor.LastEnd;
    var r := ParseFor(m, c, cons, parallel);
    if r.Failed? { return; }
    ForShape(m, c, cons, parallel);
    TwoOnward(lo, c);
    var here := c.Next().Next();
    ExpressionFrom(m, here, false, lo);
    var before := ParseAssignment(m, here, false).cursor;
    OnwardTwice(lo, c, here, before);
    BlockFrom(m, before, cons, lo);
    OnwardTwice(lo, c, before, r.cursor);
    LoopInside(lo, c, r, before.LastEnd());
  }

  lemma {:induction false} MatchFrom(m: Mode, c: Cursor, cons: bool, lo: Position)
    requires m.spans && Reached(lo, c)
    ensures StmtFrom(lo, c, ParseMatch(m, c, cons))
    decreases c.Length(), 20
  {
    hide ParseAssignment, ParseArms, Ordered, Within, Inside, ArmsWithin;
    if ParseMatch(m, c, cons).Failed? { return; }
    ExpressionFrom(m, c, false, lo);
    var subject := ParseAssignment(m, c, false);
    var next := subject.cursor;
    StepOnward(lo, next);
    var inside := next.Next();
    OnwardTwice(lo, c, next, inside);
    NoArms(lo, inside.LastEnd());
    ArmsFrom(m, inside, cons, [], lo);
    var arms := ParseArms(m, inside, cons, []);
    OnwardTwice(lo, c, inside, arms.cursor);
    StepOnward(lo, arms.cursor);
    OnwardTwice(lo, c, arms.cursor, arms.cursor.Next());
    WidenArms(arms.value, lo, arms.cursor.LastEnd(), arms.cursor.Next().LastEnd());
    OnwardTwice(lo, next, inside, arms.cursor);
    OnwardTwice(lo, next, arms.cursor, arms.cursor.Next());
    KeepsWithin(subject.value, lo, next.LastEnd(), arms.cursor.Next().LastEnd());
    MatchInside(subject.value, arms.value, lo, arms.cursor.Next().LastEnd());
  }

  lemma NoArms(lo: Position, hi: Position)
    ensures ArmsWithin([], lo, hi)
  {
  }

  lemma MatchInside(subject: Expr, arms: seq<MatchArm>, lo: Position, hi: Position)
    requires Within(subject, lo, hi) && ArmsWithin(arms, lo, hi)
    ensures Inside(Match(subject, arms), lo, hi)
  {
    forall i | 0 <= i < |arms|
      ensures PatternWithin(arms[i].pattern, lo, hi) && arms[i].body.Block? && Inside(arms[i].body, lo, hi)
    {
      assert ArmWithin(arms[i], lo, hi);
    }
  }

  lemma {:induction false} ArmsFrom(m: Mode, c: Cursor, cons: bool, done: seq<MatchArm>, lo: Position)
    requires m.spans && Reached(lo, c) && ArmsWithin(done, lo, c.LastEnd())
    ensures var r := ParseArms(m, c, cons, done);
            r.Parsed? ==> Onward(lo, c, r.cursor) && ArmsWithin(r.value, lo, r.cursor.LastEnd())
    decreases c.Length(), 22
  {
    hide ParseArm, ArmWithin, Ordered;
    if c.rest.End? || c.Starts(RightBrace) { return; }
    ArmFrom(m, c, cons, lo);
    var arm := ParseArm(m, c, cons);
    if arm.Failed? { return; }
    WidenArms(done, lo, c.LastEnd(), arm.cursor.LastEnd());
    ArmsFrom(m, arm.cursor, cons, done + [arm.value], lo);
    var r := ParseArms(m, c, cons, done);
    if r.Parsed? {
      OnwardTwice(lo, c, arm.cursor, r.cursor);
    }
  }

  lemma {:induction false} ArmFrom(m: Mode, c: Cursor, cons: bool, lo: Position)
    requires m.spans && Reached(lo, c) && c.rest.More?
    ensures var r := ParseArm(m, c, cons);
            r.Parsed? ==> Onward(lo, c, r.cursor) && ArmWithin(r.value, lo, r.cursor.LastEnd())
    decreases c.Length(), 21
  {
    hide ParseBlock, Ordered, Inside;
    if ParseArm(m, c, cons).Failed? { return; }
    StepOnward(lo, c);
    StepOnward(lo, c.Next());
    var here := c.Next().Next();
    BlockFrom(m, here, cons, lo);
    var end := ParseBlock(m, here, cons).cursor;
    Transitive(c.Next().LastEnd(), here.LastEnd(), end.LastEnd());
    OnwardTwice(lo, c, c.Next(), here);
    OnwardTwice(lo, c, here, end);
  }

  /**
   * A whole program parsed with spans: each declaration has one location, from
   * its first token to its last, in source order, around everything it contains.
   */
  lemma ProgramSpans(m: Mode, tokens: seq<Token>)
    requires m.spans && tokens != [] && OrderedStream(StreamOf(tokens, 0))
    ensures var c := Cursor(None, StreamOf(tokens, 0));
            ListFrom(Start(c), c, ParseMany(m, c, true, false, []))
  {
    hide OrderedStream, ParseMany;
    var c := Cursor(None, StreamOf(tokens, 0));
    assert Ordered(c);
    ManySpans(m, c, true, false, [], Start(c));
  }
}
