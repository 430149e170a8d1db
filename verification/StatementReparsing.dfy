/** Every program the parser builds without locations can be printed and parsed back. */
module StatementReparsing {
  import opened Wrappers
  import opened Ast
  import opened Tokens
  import opened Literals
  import opened Grammar
  import opened Declarations
  import opened Printing
  import opened StatementPrinting
  import opened RoundTrip
  import opened StatementRoundTrip
  import opened Reparsing

  ghost predicate GoodStmt(m: Mode, show: FloatPrinter, r: Parse<Stmt>) {
    r.Parsed? ==> Writable(m, show, r.value)
  }

  ghost predicate GoodBlock(m: Mode, show: FloatPrinter, r: Parse<Stmt>) {
    r.Parsed? ==> r.value.Block? && Writable(m, show, r.value)
  }

  // ----- pieces without bodies -----

  lemma TypesPlain(m: Mode, c: Cursor)
    requires !m.spans
    ensures ParseAnnotation(m, c).Parsed? ==> PlainOptionalType(ParseAnnotation(m, c).value)
    ensures ParseResult(m, c).Parsed? ==> PlainOptionalType(ParseResult(m, c).value)
    ensures ParseTypeField(m, c).Parsed? ==> PlainType(ParseTypeField(m, c).value.annotation)
  {
  }

  lemma {:induction false} ParametersPlain(m: Mode, c: Cursor, done: seq<Parameter>)
    requires !m.spans && PlainParameters(done)
    ensures ParseParameters(m, c, done).Parsed? ==> PlainParameters(ParseParameters(m, c, done).value)
    decreases c.Length()
  {
    hide ParseParameter;
    ParameterPlain(m, c);
    var p := ParseParameter(m, c);
    if p.Parsed? {
      if p.cursor.Starts(Comma) && !p.cursor.Next().Starts(RightParen) {
        ParametersPlain(m, p.cursor.Next(), done + [p.value]);
      }
    }
  }

  lemma FieldPlain(m: Mode, c: Cursor)
    requires !m.spans
    ensures ParseTypeField(m, c).Parsed? ==> PlainType(ParseTypeField(m, c).value.annotation)
  {
    TypesPlain(m, c);
  }

  lemma FieldsUnroll(m: Mode, c: Cursor, done: seq<TypeField>)
    ensures var f, r := ParseTypeField(m, c), ParseTypeFields(m, c, done);
            if f.Failed? then r.Failed?
            else if f.cursor.Starts(Comma) && !f.cursor.Next().Starts(RightBrace)
            then r == ParseTypeFields(m, f.cursor.Next(), done + [f.value])
            else r.Parsed? ==> r.value == done + [f.value]
  {
    hide ParseTypeField;
  }

  lemma {:induction false} FieldsPlain(m: Mode, c: Cursor, done: seq<TypeField>)
    requires !m.spans && PlainFields(done)
    ensures ParseTypeFields(m, c, done).Parsed? ==> PlainFields(ParseTypeFields(m, c, done).value)
    decreases c.Length()
  {
    hide ParseTypeField, ParseTypeFields, Cursor.Next, Cursor.Starts, PlainType;
    FieldPlain(m, c);
    FieldsUnroll(m, c, done);
    var f := ParseTypeField(m, c);
    if f.Parsed? && f.cursor.Starts(Comma) && !f.cursor.Next().Starts(RightBrace) {
      FieldsPlain(m, f.cursor.Next(), done + [f.value]);
    }
  }

  lemma SimpleGood(m: Mode, show: FloatPrinter, c: Cursor, cons: bool)
    requires !m.spans && Readable(m, show)
    ensures GoodStmt(m, show, ParseTypeDecl(m, c)) && GoodStmt(m, show, ParseLet(m, c, cons))
    ensures GoodStmt(m, show, ParseReturn(m, c, cons)) && GoodStmt(m, show, ParseExpressionStmt(m, c, cons))
  {
    hide Readable, Producible, ParseAssignment, ParseTypeDecl, ParseLet;
    TypeDeclGood(m, show, c);
    LetGood(m, show, c, cons);
    AssignmentGood(m, show, c, cons);
  }

  lemma TypeDeclGood(m: Mode, show: FloatPrinter, c: Cursor)
    requires !m.spans
    ensures GoodStmt(m, show, ParseTypeDecl(m, c))
  {
    hide ParseTypeFields;
    FieldsPlain(m, c.Next().Next(), []);
  }

  lemma ParameterPlain(m: Mode, c: Cursor)
    requires !m.spans
    ensures ParseParameter(m, c).Parsed? ==> PlainOptionalType(ParseParameter(m, c).value.annotation)
  {
    hide ParseAnnotation;
    TypesPlain(m, c.Next());
  }

  lemma LetGood(m: Mode, show: FloatPrinter, c: Cursor, cons: bool)
    requires !m.spans && Readable(m, show)
    ensures GoodStmt(m, show, ParseLet(m, c, cons))
  {
    hide Readable, Producible, ParseAssignment, ParseParameter;
    ParameterPlain(m, c);
    var p := ParseParameter(m, c);
    if p.Parsed? {
      AssignmentGood(m, show, p.cursor.Next(), cons);
    }
  }

  lemma SignatureGood(m: Mode, c: Cursor)
    requires !m.spans
    ensures ParseSignature(m, c).Parsed? ==>
              PlainParameters(ParseSignature(m, c).value.parameters) && PlainOptionalType(ParseSignature(m, c).value.result)
  {
    hide ParseParameters, ParseResult;
    ParametersPlain(m, c.Next(), []);
    var parameters := ParseParameterList(m, c);
    if parameters.Parsed? {
      TypesPlain(m, parameters.cursor);
    }
  }

  lemma PatternPlain(token: Token)
    ensures PatternOf(token).Ok? ==> !PatternOf(token).value.LocatedPattern?
  {
    hide IntegerOf, StringOf;
  }

  // ----- statements -----

  lemma {:induction false} ManyGood(m: Mode, show: FloatPrinter, c: Cursor, cons: bool, block: bool, done: seq<Stmt>)
    requires !m.spans && Readable(m, show) && AllWritable(m, show, done)
    ensures ParseMany(m, c, cons, block, done).Parsed? ==> AllWritable(m, show, ParseMany(m, c, cons, block, done).value)
    decreases c.Length(), 22
  {
    hide Readable, Writable, ParseDeclaration;
    if c.rest.End? || (block && c.Starts(RightBrace)) { return; }
    DeclarationGood(m, show, c, cons);
    var s := ParseDeclaration(m, c, cons);
    if s.Parsed? {
      ManyGood(m, show, s.cursor, cons, block, done + [s.value]);
    }
  }

  lemma {:induction false} BlockGood(m: Mode, show: FloatPrinter, c: Cursor, cons: bool)
    requires !m.spans && Readable(m, show)
    ensures GoodBlock(m, show, ParseBlock(m, c, cons))
    decreases c.Length(), 18
  {
    hide Readable, ParseMany;
    if c.Starts(LeftBrace) {
      ManyGood(m, show, c.Next(), cons, true, []);
    }
  }

  /** A head and its block, as every statement with a body has them. */
  lemma {:induction false} HeadGood(m: Mode, show: FloatPrinter, c: Cursor, cons: bool)
    requires !m.spans && Readable(m, show)
    ensures Good(m, show, ParseAssignment(m, c, false))
    ensures ParseAssignment(m, c, false).Parsed? ==> GoodBlock(m, show, ParseBlock(m, ParseAssignment(m, c, false).cursor, cons))
    decreases c.Length(), 19, 0
  {
    hide Readable, Producible, Writable, ParseAssignment, ParseBlock;
    AssignmentGood(m, show, c, false);
    var head := ParseAssignment(m, c, false);
    if head.Parsed? {
      BlockGood(m, show, head.cursor, cons);
    }
  }

  lemma {:induction false} IfGood(m: Mode, show: FloatPrinter, c: Cursor, cons: bool)
    requires !m.spans && Readable(m, show)
    ensures GoodStmt(m, show, ParseIf(m, c, cons)) && (ParseIf(m, c, cons).Parsed? ==> ParseIf(m, c, cons).value.If?)
    decreases c.Length(), 19, 1
  {
    hide Readable, Producible, ParseAssignment, ParseBlock, ParseElse;
    HeadGood(m, show, c, cons);
    var head := ParseAssignment(m, c, false);
    if head.Failed? { return; }
    var body := ParseBlock(m, head.cursor, cons);
    if body.Failed? { return; }
    ElseGood(m, show, body.cursor, cons);
  }

  lemma {:induction false} ElseGood(m: Mode, show: FloatPrinter, c: Cursor, cons: bool)
    requires !m.spans && Readable(m, show)
    ensures var r := ParseElse(m, c, cons);
            r.Parsed? && r.value.Some? ==> (r.value.value.Block? || r.value.value.If?) && Writable(m, show, r.value.value)
    decreases c.Length(), 19
  {
    hide Readable, Producible, ParseIf, ParseBlock;
    if c.Starts(ElseWord) {
      if c.Next().Starts(IfWord) {
        IfGood(m, show, c.Next().Next(), cons);
      } else {
        BlockGood(m, show, c.Next(), cons);
      }
    }
  }

  lemma {:induction false} LoopsGood(m: Mode, show: FloatPrinter, c: Cursor, cons: bool, parallel: bool)
    requires !m.spans && Readable(m, show)
    ensures GoodStmt(m, show, ParseWhile(m, c, cons)) && GoodStmt(m, show, ParseFor(m, c, cons, parallel))
    decreases c.Length(), 19, 1
  {
    hide Readable, Producible, ParseAssignment, ParseBlock;
    HeadGood(m, show, c, cons);
    HeadGood(m, show, c.Next().Next(), cons);
  }

  lemma {:induction false} FunctionGood(m: Mode, show: FloatPrinter, c: Cursor, cons: bool)
    requires !m.spans && Readable(m, show)
    ensures GoodStmt(m, show, ParseFunction(m, c, cons))
    decreases c.Length(), 20
  {
    hide Readable, Producible, ParseSignature, ParseBlock;
    SignatureGood(m, c.Next());
    var signature := ParseSignature(m, c.Next());
    if c.Starts(IdentifierToken) && signature.Parsed? {
      BlockGood(m, show, signature.cursor, cons);
    }
  }

  lemma {:induction false} ArmGood(m: Mode, show: FloatPrinter, c: Cursor, cons: bool)
    requires !m.spans && Readable(m, show) && c.rest.More?
    ensures var r := ParseArm(m, c, cons); r.Parsed? ==> ArmsWritable(m, show, [r.value])
    decreases c.Length(), 21
  {
    hide Readable, Writable, PatternOf, ParseBlock;
    PatternPlain(c.rest.head);
    if c.Next().Starts(FatArrow) {
      BlockGood(m, show, c.Next().Next(), cons);
    }
  }

  lemma {:induction false} ArmsGood(m: Mode, show: FloatPrinter, c: Cursor, cons: bool, done: seq<MatchArm>)
    requires !m.spans && Readable(m, show) && ArmsWritable(m, show, done)
    ensures ParseArms(m, c, cons, done).Parsed? ==> ArmsWritable(m, show, ParseArms(m, c, cons, done).value)
    decreases c.Length(), 22
  {
    hide Readable, Writable, ParseArm;
    if c.rest.End? || c.Starts(RightBrace) { return; }
    ArmGood(m, show, c, cons);
    var arm := ParseArm(m, c, cons);
    if arm.Parsed? {
      assert [arm.value][0] == arm.value;
      ArmsGood(m, show, arm.cursor, cons, done + [arm.value]);
    }
  }

  lemma {:induction false} MatchGood(m: Mode, show: FloatPrinter, c: Cursor, cons: bool)
    requires !m.spans && Readable(m, show)
    ensures GoodStmt(m, show, ParseMatch(m, c, cons))
    decreases c.Length(), 19
  {
    hide Readable, Producible, ParseAssignment, ParseArms;
    AssignmentGood(m, show, c, false);
    var subject := ParseAssignment(m, c, false);
    if subject.Parsed? && subject.cursor.Starts(LeftBrace) {
      ArmsGood(m, show, subject.cursor.Next(), cons, []);
    }
  }

  lemma {:induction false} DeclarationGood(m: Mode, show: FloatPrinter, c: Cursor, cons: bool)
    requires !m.spans && Readable(m, show)
    ensures GoodStmt(m, show, ParseDeclaration(m, c, cons))
    decreases c.Length(), 21
  {
    hide Readable, Producible, Writable, ParseTypeDecl, ParseLet, ParseFunction, ParseStatement;
    if c.Starts(TypeWord) || c.Starts(LetWord) {
      SimpleGood(m, show, c.Next(), cons);
    } else if c.Starts(FnWord) {
      FunctionGood(m, show, c.Next(), cons);
    } else {
      StatementGood(m, show, c, cons);
    }
  }

  lemma {:induction false} StatementGood(m: Mode, show: FloatPrinter, c: Cursor, cons: bool)
    requires !m.spans && Readable(m, show)
    ensures GoodStmt(m, show, ParseStatement(m, c, cons))
    decreases c.Length(), 19
  {
    hide Readable, Producible, ParseBlock, ParseIf, ParseWhile, ParseMatch, ParseFor, ParseReturn, ParseExpressionStmt;
    if c.Starts(BreakWord) || c.Starts(ContinueWord) { return; }
    hide Writable;
    if c.Starts(LeftBrace) {
      BlockGood(m, show, c, cons);
    } else if c.Starts(IfWord) {
      IfGood(m, show, c.Next(), cons);
    } else if c.Starts(WhileWord) || c.Starts(ForWord) {
      LoopsGood(m, show, c.Next(), cons, false);
    } else if c.Starts(ParallelWord) {
      LoopsGood(m, show, c.Next(), cons, true);
    } else if c.Starts(MatchWord) {
      MatchGood(m, show, c.Next(), cons);
    } else if c.Starts(ReturnWord) {
      SimpleGood(m, show, c.Next(), cons);
    } else {
      SimpleGood(m, show, c, cons);
    }
  }

  /** Whatever program was parsed, from whatever tokens, can be printed and parsed back to the same statements. */
  lemma ProgramReparses(m: Mode, show: FloatPrinter, c: Cursor, eof: Token)
    requires !m.spans && Readable(m, show) && ParseMany(m, c, true, false, []).Parsed?
    ensures var stmts := ParseMany(m, c, true, false, []).value;
            Yields(ParseMany(m, Cursor(None, PrintProgram(show, stmts, End(eof))), true, false, []), stmts, End(eof))
  {
    hide ParseMany, PrintProgram, Writable, Readable;
    ManyGood(m, show, c, true, false, []);
    ProgramParsePrint(m, show, ParseMany(m, c, true, false, []).value, eof);
  }
}
