/** Whole programs parsed with and without locations: the same statements, up to the locations. */
module ProgramLocating {
  import opened Wrappers
  import opened Ast
  import opened Tokens
  import opened Grammar
  import opened Declarations
  import opened Erasure
  import opened Locating

  // ----- statements without any location -----

  function PlainAnnotation(a: TypeAnnotation): TypeAnnotation {
    a.(span := None)
  }

  function PlainOption(a: Option<TypeAnnotation>): Option<TypeAnnotation> {
    if a.Some? then Some(PlainAnnotation(a.value)) else None
  }

  function PlainField(f: TypeField): TypeField {
    f.(annotation := PlainAnnotation(f.annotation))
  }

  function PlainParameter(p: Parameter): Parameter {
    p.(annotation := PlainOption(p.annotation))
  }

  function PlainFields(fields: seq<TypeField>): (plain: seq<TypeField>)
    ensures |plain| == |fields| && forall i | 0 <= i < |fields| :: plain[i] == PlainField(fields[i])
  {
    seq(|fields|, i requires 0 <= i < |fields| => PlainField(fields[i]))
  }

  function PlainParameters(parameters: seq<Parameter>): (plain: seq<Parameter>)
    ensures |plain| == |parameters| && forall i | 0 <= i < |parameters| :: plain[i] == PlainParameter(parameters[i])
  {
    seq(|parameters|, i requires 0 <= i < |parameters| => PlainParameter(parameters[i]))
  }

  /** The statement without wrappers and without annotation ranges. */
  function Plain(s: Stmt): Stmt
    decreases s
  {
    match s
    case LocatedStmt(_, inner) => Plain(inner)
    case TypeDecl(name, fields) => TypeDecl(name, PlainFields(fields))
    case Parallel(variable, iterable, body) => Parallel(variable, Erase(iterable), Plain(body))
    case Match(subject, arms) => Match(Erase(subject), PlainArms(s, arms))
    case Let(name, annotation, value) => Let(name, PlainOption(annotation), Erase(value))
    case ExprStmt(e) => ExprStmt(Erase(e))
    case Block(statements) => Block(PlainList(s, statements))
    case If(condition, thenBranch, elseBranch) =>
      If(Erase(condition), Plain(thenBranch), if elseBranch.Some? then Some(Plain(elseBranch.value)) else None)
    case While(condition, body) => While(Erase(condition), Plain(body))
    case For(variable, iterable, body) => For(variable, Erase(iterable), Plain(body))
    case Function(name, parameters, result, body) =>
      Function(name, PlainParameters(parameters), PlainOption(result), Plain(body))
    case Return(returned) => Return(if returned.Some? then Some(Erase(returned.value)) else None)
    case Break => s
    case Continue => s
  }

  function PlainList(parent: Stmt, stmts: seq<Stmt>): (plain: seq<Stmt>)
    requires forall i | 0 <= i < |stmts| :: stmts[i] < parent
    ensures |plain| == |stmts| && forall i | 0 <= i < |stmts| :: plain[i] == Plain(stmts[i])
    decreases parent, 0
  {
    seq(|stmts|, i requires 0 <= i < |stmts| => Plain(stmts[i]))
  }

  function PlainArms(parent: Stmt, arms: seq<MatchArm>): (plain: seq<MatchArm>)
    requires forall i | 0 <= i < |arms| :: arms[i].body < parent
    ensures |plain| == |arms|
    ensures forall i | 0 <= i < |arms| :: plain[i].pattern == arms[i].pattern.Unspanned() && plain[i].body == Plain(arms[i].body)
    decreases parent, 0
  {
    seq(|arms|, i requires 0 <= i < |arms| => MatchArm(arms[i].pattern.Unspanned(), Plain(arms[i].body)))
  }

  predicate PlainStmts(stmts: seq<Stmt>, plain: seq<Stmt>) {
    |plain| == |stmts| && forall i | 0 <= i < |stmts| :: plain[i] == Plain(stmts[i])
  }

  predicate PlainMatchArms(arms: seq<MatchArm>, plain: seq<MatchArm>) {
    |plain| == |arms| && forall i | 0 <= i < |arms| :: plain[i] == MatchArm(arms[i].pattern.Unspanned(), Plain(arms[i].body))
  }

  // ----- the same parse twice -----

  predicate SameStmt(r: Parse<Stmt>, q: Parse<Stmt>) {
    if r.Parsed? then q == Parsed(Plain(r.value), r.cursor) else q == r
  }

  predicate SameAnnotation(r: Parse<Option<TypeAnnotation>>, q: Parse<Option<TypeAnnotation>>) {
    if r.Parsed? then q == Parsed(PlainOption(r.value), r.cursor) else q == r
  }

  lemma TypeNameSame(m: Mode, b: Mode, c: Cursor)
    requires Both(m, b)
    ensures var r, q := ParseTypeName(m, c), ParseTypeName(b, c);
            if r.Parsed? then q == Parsed(PlainAnnotation(r.value), r.cursor) else q == r
  {
  }

  lemma AnnotationSame(m: Mode, b: Mode, c: Cursor)
    requires Both(m, b)
    ensures SameAnnotation(ParseAnnotation(m, c), ParseAnnotation(b, c))
    ensures SameAnnotation(ParseResult(m, c), ParseResult(b, c))
  {
    hide ParseTypeName;
    TypeNameSame(m, b, c.Next());
  }

  lemma TypeFieldSame(m: Mode, b: Mode, c: Cursor)
    requires Both(m, b)
    ensures var r, q := ParseTypeField(m, c), ParseTypeField(b, c);
            if r.Parsed? then q == Parsed(PlainField(r.value), r.cursor) else q == r
  {
    hide ParseTypeName;
    var name := Consume(c, IdentifierToken);
    if name.Parsed? && Consume(name.cursor, Colon).Parsed? {
      TypeNameSame(m, b, Consume(name.cursor, Colon).cursor);
    }
  }

  lemma {:induction false} TypeFieldsSame(m: Mode, b: Mode, c: Cursor, done: seq<TypeField>)
    requires Both(m, b)
    ensures var r, q := ParseTypeFields(m, c, done), ParseTypeFields(b, c, PlainFields(done));
            if r.Parsed? then q == Parsed(PlainFields(r.value), r.cursor) else q == r
    decreases c.Length()
  {
    hide ParseTypeField;
    TypeFieldSame(m, b, c);
    var field := ParseTypeField(m, c);
    if field.Parsed? {
      assert PlainFields(done + [field.value]) == PlainFields(done) + [PlainField(field.value)];
      if field.cursor.Starts(Comma) && !field.cursor.Next().Starts(RightBrace) {
        TypeFieldsSame(m, b, field.cursor.Next(), done + [field.value]);
      }
    }
  }

  lemma TypeDeclSame(m: Mode, b: Mode, c: Cursor)
    requires Both(m, b)
    ensures SameStmt(ParseTypeDecl(m, c), ParseTypeDecl(b, c))
  {
    hide ParseTypeFields, Erase;
    var name := Consume(c, IdentifierToken);
    if name.Failed? { return; }
    var brace := Consume(name.cursor, LeftBrace);
    if brace.Failed? { return; }
    assert PlainFields([]) == [];
    TypeFieldsSame(m, b, brace.cursor, []);
  }

  lemma ParameterSame(m: Mode, b: Mode, c: Cursor)
    requires Both(m, b)
    ensures var r, q := ParseParameter(m, c), ParseParameter(b, c);
            if r.Parsed? then q == Parsed(PlainParameter(r.value), r.cursor) else q == r
  {
    hide ParseAnnotation, ParseResult;
    var name := Consume(c, IdentifierToken);
    if name.Parsed? {
      AnnotationSame(m, b, name.cursor);
    }
  }

  lemma {:induction false} ParametersSame(m: Mode, b: Mode, c: Cursor, done: seq<Parameter>)
    requires Both(m, b)
    ensures var r, q := ParseParameters(m, c, done), ParseParameters(b, c, PlainParameters(done));
            if r.Parsed? then q == Parsed(PlainParameters(r.value), r.cursor) else q == r
    decreases c.Length()
  {
    hide ParseParameter;
    ParameterSame(m, b, c);
    var parameter := ParseParameter(m, c);
    if parameter.Parsed? {
      assert PlainParameters(done + [parameter.value]) == PlainParameters(done) + [PlainParameter(parameter.value)];
      if parameter.cursor.Starts(Comma) && !parameter.cursor.Next().Starts(RightParen) {
        ParametersSame(m, b, parameter.cursor.Next(), done + [parameter.value]);
      }
    }
  }

  lemma ParameterListSame(m: Mode, b: Mode, c: Cursor)
    requires Both(m, b)
    ensures var r, q := ParseParameterList(m, c), ParseParameterList(b, c);
            if r.Parsed? then q == Parsed(PlainParameters(r.value), r.cursor) else q == r
  {
    hide ParseParameters;
    assert PlainParameters([]) == [];
    var paren := Consume(c, LeftParen);
    if paren.Parsed? {
      ParametersSame(m, b, paren.cursor, []);
    }
  }

  lemma SignatureSame(m: Mode, b: Mode, c: Cursor)
    requires Both(m, b)
    ensures var r, q := ParseSignature(m, c), ParseSignature(b, c);
            if r.Parsed? then q == Parsed(Signature(PlainParameters(r.value.parameters), PlainOption(r.value.result)), r.cursor)
            else q == r
  {
    hide ParseParameterList, ParseAnnotation, ParseResult;
    ParameterListSame(m, b, c);
    var parameters := ParseParameterList(m, c);
    if parameters.Parsed? {
      AnnotationSame(m, b, parameters.cursor);
    }
  }

  lemma InitializerSame(m: Mode, b: Mode, c: Cursor, cons: bool)
    requires Both(m, b)
    ensures SameParse(ParseInitializer(m, c, cons), ParseInitializer(b, c, cons))
  {
    hide ParseAssignment, Erase;
    var equal := Consume(c, EqualSign);
    if equal.Parsed? {
      AssignmentSame(m, b, equal.cursor, cons);
    }
  }

  lemma LetSame(m: Mode, b: Mode, c: Cursor, cons: bool)
    requires Both(m, b)
    ensures SameStmt(ParseLet(m, c, cons), ParseLet(b, c, cons))
  {
    hide ParseParameter, ParseInitializer, Erase;
    ParameterSame(m, b, c);
    var variable := ParseParameter(m, c);
    if variable.Parsed? {
      InitializerSame(m, b, variable.cursor, cons);
    }
  }

  lemma ReturnSame(m: Mode, b: Mode, c: Cursor, cons: bool)
    requires Both(m, b)
    ensures SameStmt(ParseReturn(m, c, cons), ParseReturn(b, c, cons))
  {
    hide ParseAssignment, Erase;
    AssignmentSame(m, b, c, cons);
  }

  lemma ExpressionStmtSame(m: Mode, b: Mode, c: Cursor, cons: bool)
    requires Both(m, b)
    ensures SameStmt(ParseExpressionStmt(m, c, cons), ParseExpressionStmt(b, c, cons))
  {
    hide ParseAssignment, Erase;
    AssignmentSame(m, b, c, cons);
  }

  lemma BlockPlain(stmts: seq<Stmt>, plain: seq<Stmt>)
    requires PlainStmts(stmts, plain)
    ensures Plain(Block(stmts)) == Block(plain)
  {
    assert Plain(Block(stmts)).statements == plain;
  }

  lemma MatchPlain(subject: Expr, arms: seq<MatchArm>, plain: seq<MatchArm>)
    requires PlainMatchArms(arms, plain)
    ensures Plain(Match(subject, arms)) == Match(Erase(subject), plain)
  {
    hide Erase;
    var bare := Plain(Match(subject, arms)).arms;
    forall i | 0 <= i < |arms|
      ensures bare[i] == plain[i]
    {
      assert bare[i] == MatchArm(bare[i].pattern, bare[i].body);
    }
    assert bare == plain;
  }

  lemma {:induction false} ManySame(m: Mode, b: Mode, c: Cursor, cons: bool, block: bool, done: seq<Stmt>, plain: seq<Stmt>)
    requires Both(m, b) && PlainStmts(done, plain)
    ensures var r, q := ParseMany(m, c, cons, block, done), ParseMany(b, c, cons, block, plain);
            if r.Parsed? then q.Parsed? && q.cursor == r.cursor && PlainStmts(r.value, q.value) else q == r
    decreases c.Length(), 22
  {
    hide ParseDeclaration, Plain;
    if c.rest.End? || (block && c.Starts(RightBrace)) { return; }
    DeclarationSame(m, b, c, cons);
    var s := ParseDeclaration(m, c, cons);
    if s.Parsed? {
      ManySame(m, b, s.cursor, cons, block, done + [s.value], plain + [Plain(s.value)]);
    }
  }

  lemma {:induction false} DeclarationSame(m: Mode, b: Mode, c: Cursor, cons: bool)
    requires Both(m, b)
    ensures SameStmt(ParseDeclaration(m, c, cons), ParseDeclaration(b, c, cons))
    decreases c.Length(), 21
  {
    hide ParseDeclarationInner, Erase;
    DeclarationInnerSame(m, b, c, cons);
  }

  lemma {:induction false} DeclarationInnerSame(m: Mode, b: Mode, c: Cursor, cons: bool)
    requires Both(m, b)
    ensures SameStmt(ParseDeclarationInner(m, c, cons), ParseDeclarationInner(b, c, cons))
    decreases c.Length(), 20
  {
    hide ParseTypeDecl, ParseFunction, ParseLet, ParseStatement, Plain;
    if c.Starts(TypeWord) {
      TypeDeclSame(m, b, c.Next());
    } else if c.Starts(FnWord) {
      FunctionSame(m, b, c.Next(), cons);
    } else if c.Starts(LetWord) {
      LetSame(m, b, c.Next(), cons);
    } else {
      StatementSame(m, b, c, cons);
    }
  }

  lemma {:induction false} FunctionSame(m: Mode, b: Mode, c: Cursor, cons: bool)
    requires Both(m, b)
    ensures SameStmt(ParseFunction(m, c, cons), ParseFunction(b, c, cons))
    decreases c.Length(), 20
  {
    hide ParseSignature, ParseBlock, Erase;
    var name := Consume(c, IdentifierToken);
    if name.Failed? { return; }
    SignatureSame(m, b, name.cursor);
    var signature := ParseSignature(m, name.cursor);
    if signature.Parsed? {
      BlockSame(m, b, signature.cursor, cons);
    }
  }

  lemma {:induction false} BlockSame(m: Mode, b: Mode, c: Cursor, cons: bool)
    requires Both(m, b)
    ensures SameStmt(ParseBlock(m, c, cons), ParseBlock(b, c, cons))
    decreases c.Length(), 18
  {
    hide ParseMany, Plain;
    var brace := Consume(c, LeftBrace);
    if brace.Failed? { return; }
    ManySame(m, b, brace.cursor, cons, true, [], []);
    var statements := ParseMany(m, brace.cursor, cons, true, []);
    if statements.Parsed? {
      BlockPlain(statements.value, ParseMany(b, brace.cursor, cons, true, []).value);
    }
  }

  lemma {:induction false} StatementSame(m: Mode, b: Mode, c: Cursor, cons: bool)
    requires Both(m, b)
    ensures SameStmt(ParseStatement(m, c, cons), ParseStatement(b, c, cons))
    decreases c.Length(), 19
  {
    hide ParseLoopControl, ParseBlock, ParseIf, ParseWhile, ParseMatch, ParseFor, ParseReturn, ParseExpressionStmt, Plain;
    if c.Starts(BreakWord) || c.Starts(ContinueWord) {
      LoopControlPlain(c);
    } else if c.Starts(LeftBrace) {
      BlockSame(m, b, c, cons);
    } else if c.Starts(IfWord) {
      IfSame(m, b, c.Next(), cons);
    } else if c.Starts(WhileWord) {
      WhileSame(m, b, c.Next(), cons);
    } else if c.Starts(MatchWord) {
      MatchSame(m, b, c.Next(), cons);
    } else if c.Starts(ForWord) {
      ForSame(m, b, c.Next(), cons, false);
    } else if c.Starts(ParallelWord) {
      ForSame(m, b, c.Next(), cons, true);
    } else if c.Starts(ReturnWord) {
      ReturnSame(m, b, c.Next(), cons);
    } else {
      ExpressionStmtSame(m, b, c, cons);
    }
  }

  lemma LoopControlPlain(c: Cursor)
    requires c.Starts(BreakWord) || c.Starts(ContinueWord)
    ensures SameStmt(ParseLoopControl(c), ParseLoopControl(c))
  {
  }

  lemma {:induction false} IfSame(m: Mode, b: Mode, c: Cursor, cons: bool)
    requires Both(m, b)
    ensures SameStmt(ParseIf(m, c, cons), ParseIf(b, c, cons))
    decreases c.Length(), 19
  {
    hide ParseAssignment, ParseBlock, ParseElse, Erase;
    AssignmentSame(m, b, c, false);
    var condition := ParseAssignment(m, c, false);
    if condition.Failed? { return; }
    BlockSame(m, b, condition.cursor, cons);
    var thenBranch := ParseBlock(m, condition.cursor, cons);
    if thenBranch.Parsed? {
      ElseSame(m, b, thenBranch.cursor, cons);
    }
  }

  lemma {:induction false} ElseSame(m: Mode, b: Mode, c: Cursor, cons: bool)
    requires Both(m, b)
    ensures var r, q := ParseElse(m, c, cons), ParseElse(b, c, cons);
            if r.Parsed? then q == Parsed(if r.value.Some? then Some(Plain(r.value.value)) else None, r.cursor) else q == r
    decreases c.Length(), 19
  {
    hide ParseIf, ParseBlock, Plain;
    if c.Starts(ElseWord) {
      if c.Next().Starts(IfWord) {
        IfSame(m, b, c.Next().Next(), cons);
      } else {
        BlockSame(m, b, c.Next(), cons);
      }
    }
  }

  lemma {:induction false} WhileSame(m: Mode, b: Mode, c: Cursor, cons: bool)
    requires Both(m, b)
    ensures SameStmt(ParseWhile(m, c, cons), ParseWhile(b, c, cons))
    decreases c.Length(), 19
  {
    hide ParseAssignment, ParseBlock, Erase;
    AssignmentSame(m, b, c, false);
    var condition := ParseAssignment(m, c, false);
    if condition.Parsed? {
      BlockSame(m, b, condition.cursor, cons);
    }
  }

  lemma {:induction false} ForSame(m: Mode, b: Mode, c: Cursor, cons: bool, parallel: bool)
    requires Both(m, b)
    ensures SameStmt(ParseFor(m, c, cons, parallel), ParseFor(b, c, cons, parallel))
    decreases c.Length(), 19
  {
    hide ParseAssignment, ParseBlock, Erase;
    var variable := Consume(c, IdentifierToken);
    if variable.Failed? { return; }
    var keyword := Consume(variable.cursor, InWord);
    if keyword.Failed? { return; }
    AssignmentSame(m, b, keyword.cursor, false);
    var iterable := ParseAssignment(m, keyword.cursor, false);
    if iterable.Parsed? {
      BlockSame(m, b, iterable.cursor, cons);
    }
  }

  lemma {:induction false} MatchSame(m: Mode, b: Mode, c: Cursor, cons: bool)
    requires Both(m, b)
    ensures SameStmt(ParseMatch(m, c, cons), ParseMatch(b, c, cons))
    decreases c.Length(), 19
  {
    hide ParseAssignment, ParseArms, Erase, Plain;
    AssignmentSame(m, b, c, false);
    var subject := ParseAssignment(m, c, false);
    if subject.Failed? { return; }
    var brace := Consume(subject.cursor, LeftBrace);
    if brace.Failed? { return; }
    ArmsSame(m, b, brace.cursor, cons, [], []);
    var arms := ParseArms(m, brace.cursor, cons, []);
    if arms.Parsed? {
      MatchPlain(subject.value, arms.value, ParseArms(b, brace.cursor, cons, []).value);
    }
  }

  lemma {:induction false} ArmsSame(m: Mode, b: Mode, c: Cursor, cons: bool, done: seq<MatchArm>, plain: seq<MatchArm>)
    requires Both(m, b) && PlainMatchArms(done, plain)
    ensures var r, q := ParseArms(m, c, cons, done), ParseArms(b, c, cons, plain);
            if r.Parsed? then q.Parsed? && q.cursor == r.cursor && PlainMatchArms(r.value, q.value) else q == r
    decreases c.Length(), 22
  {
    hide ParseArm, Plain;
    if c.rest.End? || c.Starts(RightBrace) { return; }
    ArmSame(m, b, c, cons);
    var arm := ParseArm(m, c, cons);
    if arm.Parsed? {
      ArmsSame(m, b, arm.cursor, cons, done + [arm.value],
               plain + [MatchArm(arm.value.pattern.Unspanned(), Plain(arm.value.body))]);
    }
  }

  lemma {:induction false} ArmSame(m: Mode, b: Mode, c: Cursor, cons: bool)
    requires Both(m, b) && c.rest.More?
    ensures var r, q := ParseArm(m, c, cons), ParseArm(b, c, cons);
            if r.Parsed? then q == Parsed(MatchArm(r.value.pattern.Unspanned(), Plain(r.value.body)), r.cursor) else q == r
    decreases c.Length(), 21
  {
    hide ParseBlock, Plain, PatternOf;
    PatternIsBare(c.rest.head);
    if PatternOf(c.rest.head).Err? { return; }
    var arrow := Consume(c.Next(), FatArrow);
    if arrow.Parsed? {
      BlockSame(m, b, arrow.cursor, cons);
    }
  }

  lemma PatternIsBare(token: Token)
    ensures PatternOf(token).Ok? ==> PatternOf(token).value.Unspanned() == PatternOf(token).value
  {
  }

  /** A program parsed with locations is the program parsed without them, plus locations; rejected inputs fail alike. */
  lemma ProgramSame(m: Mode, b: Mode, c: Cursor, cons: bool)
    requires Both(m, b)
    ensures var r, q := ParseMany(m, c, cons, false, []), ParseMany(b, c, cons, false, []);
            if r.Parsed? then q.Parsed? && q.cursor == r.cursor && PlainStmts(r.value, q.value) else q == r
  {
    ManySame(m, b, c, cons, false, [], []);
  }
}
