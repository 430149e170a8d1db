/**
 * The semantic pass as the code writes it: one object whose scopes, loops,
 * boundaries and location are pushed, replaced and put back while errors are
 * appended (src/semantic). Each method reports exactly the errors Analysis.dfy
 * specifies, in order, and leaves everything else as specified.
 */
module SemanticPass {
  import opened Wrappers
  import opened Source
  import opened Ast
  import opened Types
  import opened Analysis
  import opened Lists
  import opened Scope

  class Analyzer {
    const types: seq<TypeDef>
    const scopes: ScopeStack
    var declaredTypes: set<string>
    var returnType: Option<ResolvedType>
    var loops: seq<LoopKind>
    var currentSpan: Option<Span>
    var functionDepth: nat
    var parallelBoundaries: seq<Boundary>
    var errors: Errors

    ghost predicate Valid()
      reads this, scopes
    {
      scopes.Valid()
    }

    ghost function Ctx(): Context
      reads this, scopes
    {
      Context(types, declaredTypes, returnType, loops, currentSpan, scopes.stack, functionDepth, parallelBoundaries)
    }

    constructor (types: seq<TypeDef>)
      ensures Valid() && fresh(scopes) && errors == []
      ensures Ctx() == TopContext(types).(scopes := [BuiltinScope()])
    {
      this.types := types;
      scopes := new ScopeStack();
      declaredTypes, returnType, loops, currentSpan, functionDepth, parallelBoundaries, errors := {}, None, [], None, 0, [], [];
    }

    method Complain(kind: ErrorKind, about: seq<string>)
      requires Valid()
      modifies this`errors
      ensures Valid() && Ctx() == old(Ctx()) && errors == old(errors) + Report(Ctx(), kind, about)
    {
      errors := errors + [SemanticError(kind, about, currentSpan)];
    }

    method DeclareSymbol(name: string, symbol: Symbol)
      requires Valid()
      modifies this`errors, scopes
      ensures Valid() && Ctx() == Declare(old(Ctx()), name, symbol)
      ensures errors == old(errors) + DeclareErrors(old(Ctx()), name)
    {
      var added := scopes.Declare(name, symbol);
      assert scopes.stack == old(Declare(Ctx(), name, symbol).scopes);
      if !added {
        Complain(DuplicateDeclaration, [name]);
      }
    }

    /** A name that must resolve. */
    method ResolveName(name: string) returns (symbol: Option<Symbol>)
      requires Valid()
      modifies this`errors
      ensures Valid() && Ctx() == old(Ctx())
      ensures symbol == LookUpSymbol(Ctx().scopes, name) && errors == old(errors) + UndefinedErrors(Ctx(), name)
    {
      symbol := scopes.Resolve(name);
      if symbol.None? {
        Complain(UndefinedSymbol, [name]);
      }
    }

    // ----- types -----

    method ResolveType(annotation: TypeAnnotation) returns (t: Option<ResolvedType>)
      requires Valid()
      modifies this`errors, this`currentSpan
      ensures Valid() && Ctx() == old(Ctx())
      ensures t == Resolve(types, annotation.name) && errors == old(errors) + AnnotationErrors(Ctx(), annotation)
    {
      t := Resolve(types, annotation.name);
      if t.None? {
        var previous := currentSpan;
        currentSpan := annotation.span.Or(previous);
        Complain(UnknownType, [annotation.name]);
        currentSpan := previous;
      }
    }

    method ResolveOptionalType(annotation: Option<TypeAnnotation>) returns (t: Option<ResolvedType>)
      requires Valid()
      modifies this`errors, this`currentSpan
      ensures Valid() && Ctx() == old(Ctx())
      ensures t == ResolveAnnotation(types, annotation) && errors == old(errors) + OptionalAnnotationErrors(Ctx(), annotation)
    {
      t := None;
      if annotation.Some? {
        t := ResolveType(annotation.value);
      }
    }

    method CheckType(e: Expr, expected: Option<ResolvedType>)
      requires Valid()
      modifies this`errors, this`currentSpan
      ensures Valid() && Ctx() == old(Ctx()) && errors == old(errors) + CheckContractErrors(Ctx(), e, expected)
    {
      if expected.None? || !InRange(types, expected.value) {
        return;
      }
      var actual := KnownType(types, scopes.stack, e);
      if actual.Some? && actual.value != TypeName(types, expected.value) {
        var previous := currentSpan;
        currentSpan := e.Where().Or(previous);
        Complain(TypeMismatch, [TypeName(types, expected.value)] + [actual.value]);
        currentSpan := previous;
      }
    }

    method CheckMember(owner: Expr, name: string)
      requires Valid()
      modifies this`errors
      ensures Valid() && Ctx() == old(Ctx()) && errors == old(errors) + CheckMemberErrors(Ctx(), owner, name)
    {
      var known := KnownType(types, scopes.stack, owner);
      if known.Some? {
        var t := Resolve(types, known.value);
        if t.Some? && t.value.Named? && FindField(types[t.value.id].fields, name).None? {
          Complain(TypeMismatch, [known.value, name]);
        }
      }
    }

    // ----- expressions -----

    method Expression(e: Expr)
      requires Valid()
      modifies this`errors, this`currentSpan
      ensures Valid() && Ctx() == old(Ctx()) && errors == old(errors) + ExpressionErrors(Ctx(), e)
      decreases e, 1
    {
      ExpressionErrorsCases(Ctx(), e);
      hide ExpressionErrors, OperandErrors, UndefinedErrors;
      if e.Located? {
        var previous := currentSpan;
        currentSpan := Some(e.span);
        Expression(e.inner);
        currentSpan := previous;
      } else if e.Identifier? {
        var _ := ResolveName(e.name);
      } else if e.Construct? {
        ConstructorCheck(e);
      } else if e.Assignment? {
        AssignmentCheck(e);
      } else if e.Call? {
        CallCheck(e);
      } else if e.Binary? {
        Expression(e.left);
        Expression(e.right);
      } else if e.Property? || e.Index? {
        AccessCheck(e);
      } else {
        OperandsOf(e, 0, |Operands(e)|);
      }
    }

    method AccessCheck(e: Expr)
      requires Valid() && (e.Property? || e.Index?)
      modifies this`errors, this`currentSpan
      ensures Valid() && Ctx() == old(Ctx()) && errors == old(errors) + ExpressionErrors(Ctx(), e)
      decreases e, 0
    {
      ExpressionErrorsCases(Ctx(), e);
      hide CheckMemberErrors, ExpressionErrors;
      Expression(e.owner);
      if e.Property? {
        CheckMember(e.owner, e.name);
      } else {
        Expression(e.index);
        if e.index.Unspanned().StringLit? {
          CheckMember(e.owner, e.index.Unspanned().text);
        }
      }
    }

    method OperandsOf(e: Expr, lo: nat, hi: nat)
      requires Valid() && lo <= hi <= |Operands(e)|
      modifies this`errors, this`currentSpan
      ensures Valid() && Ctx() == old(Ctx()) && errors == old(errors) + OperandErrors(Ctx(), e, lo, hi)
      decreases e, 0
    {
      hide ExpressionErrors;
      for i := lo to hi
        invariant Valid() && Ctx() == old(Ctx()) && errors == old(errors) + OperandErrors(Ctx(), e, lo, i)
      {
        Expression(Operands(e)[i]);
      }
    }

    method ConstructorCheck(e: Expr)
      requires Valid() && e.Construct?
      modifies this`errors, this`currentSpan
      ensures Valid() && Ctx() == old(Ctx()) && errors == old(errors) + ExpressionErrors(Ctx(), e)
      decreases e, 0
    {
      ConstructCases(Ctx(), e);
      hide ExpressionErrors, FieldErrors, MissingErrors;
      ghost var c, start := Ctx(), errors;
      var id := ConstructedType(Context(types, declaredTypes, returnType, loops, currentSpan, scopes.stack, functionDepth, parallelBoundaries), e.name);
      if id.None? {
        Complain(InvalidConstructor, [e.name]);
      }
      ConstructorFields(e, id);
      if id.Some? {
        MissingFields(e, id.value);
      } else {
        NothingMissing(c, e);
      }
      Appended(start, When(id.None?, Report(c, InvalidConstructor, [e.name])), FieldErrors(c, e, |e.fields|),
               MissingErrors(c, e, |RequiredFields(c, e.name)|), []);
    }

    method ConstructorFields(e: Expr, id: Option<nat>)
      requires Valid() && e.Construct? && id == ConstructedType(Ctx(), e.name)
      modifies this`errors, this`currentSpan
      ensures Valid() && Ctx() == old(Ctx()) && errors == old(errors) + FieldErrors(Ctx(), e, |e.fields|)
      decreases e, 0, 0
    {
      hide ExpressionErrors, FieldCheckErrors;
      var names: set<string> := {};
      for i := 0 to |e.fields|
        invariant Valid() && Ctx() == old(Ctx()) && errors == old(errors) + FieldErrors(Ctx(), e, i)
        invariant forall key :: key in names <==> key in Keys(e.fields)[..i]
      {
        assert Operands(e)[i] == e.fields[i].value;
        Expression(e.fields[i].value);
        FieldCheck(e, i, id, e.fields[i].key in names);
        assert Keys(e.fields)[..i + 1] == Keys(e.fields)[..i] + [e.fields[i].key];
        names := names + {e.fields[i].key};
      }
    }

    method FieldCheck(e: Expr, i: nat, id: Option<nat>, repeated: bool)
      requires Valid() && e.Construct? && i < |e.fields| && id == ConstructedType(Ctx(), e.name)
      requires repeated <==> e.fields[i].key in Keys(e.fields)[..i]
      modifies this`errors, this`currentSpan
      ensures Valid() && Ctx() == old(Ctx()) && errors == old(errors) + FieldCheckErrors(Ctx(), e, i)
    {
      hide CheckContractErrors;
      var key := e.fields[i].key;
      if repeated {
        Complain(InvalidConstructor, [key]);
      }
      if id.Some? {
        if FindField(types[id.value].fields, key).None? {
          Complain(InvalidConstructor, [e.name, key]);
        } else {
          CheckType(e.fields[i].value, FieldType(types, types[id.value].fields, key));
        }
      }
    }

    method MissingFields(e: Expr, id: nat)
      requires Valid() && e.Construct? && ConstructedType(Ctx(), e.name) == Some(id)
      modifies this`errors
      ensures Valid() && Ctx() == old(Ctx())
      ensures errors == old(errors) + MissingErrors(Ctx(), e, |RequiredFields(Ctx(), e.name)|)
    {
      var required := types[id].fields;
      for i := 0 to |required|
        invariant Valid() && Ctx() == old(Ctx()) && errors == old(errors) + MissingErrors(Ctx(), e, i)
      {
        if required[i].name !in Keys(e.fields) {
          Complain(InvalidConstructor, [required[i].name]);
        }
      }
    }

    method AssignmentCheck(e: Expr)
      requires Valid() && e.Assignment?
      modifies this`errors, this`currentSpan
      ensures Valid() && Ctx() == old(Ctx()) && errors == old(errors) + ExpressionErrors(Ctx(), e)
      decreases e, 0
    {
      AssignmentCases(Ctx(), e);
      hide ExpressionErrors, CheckContractErrors, CapturesRoot, TargetContract, TargetErrors, CaptureErrors;
      ghost var c, start, here := Ctx(), errors, Here(Ctx(), e.target.Where());
      var previous := currentSpan;
      currentSpan := e.target.Where().Or(previous);
      TargetCheck(e.target);
      CaptureCheck(e.target);
      currentSpan := previous;
      Expression(e.value);
      CheckType(e.value, TargetContract(Context(types, declaredTypes, returnType, loops, currentSpan, scopes.stack, functionDepth, parallelBoundaries), e.target));
      Appended(start, TargetErrors(here, e.target), CaptureErrors(here, e.target), ExpressionErrors(c, e.value),
               CheckContractErrors(c, e.value, TargetContract(c, e.target)));
    }

    method TargetCheck(target: Expr)
      requires Valid()
      modifies this`errors, this`currentSpan
      ensures Valid() && Ctx() == old(Ctx()) && errors == old(errors) + TargetErrors(Ctx(), target)
      decreases target, 2
    {
      hide ExpressionErrors;
      var bare := target.Unspanned();
      if bare.Identifier? {
        var symbol := ResolveName(bare.name);
        if symbol.Some? && !symbol.value.IsMutable() {
          Complain(ImmutableAssignment, [bare.name]);
        }
      } else if bare.Property? || bare.Index? {
        Expression(target);
      } else {
        Complain(InvalidAssignmentTarget, []);
        Expression(target);
      }
    }

    /** Writes to anything outside the innermost worker. */
    method CaptureCheck(target: Expr)
      requires Valid()
      modifies this`errors
      ensures Valid() && Ctx() == old(Ctx()) && errors == old(errors) + CaptureErrors(Ctx(), target)
    {
      var root := target.Unspanned();
      RootUnspanned(target);
      hide LookUpDepth;
      while root.Property? || root.Index?
        invariant Valid() && Ctx() == old(Ctx()) && errors == old(errors)
        invariant RootOf(target) == RootOf(root) && !root.Located?
        decreases root
      {
        RootUnspanned(root.owner);
        root := root.owner.Unspanned();
      }
      assert root.Identifier? <==> RootOf(target).Some?;
      assert root.Identifier? ==> RootOf(target) == Some(root.name);
      if root.Identifier? && parallelBoundaries != [] {
        var boundary := parallelBoundaries[|parallelBoundaries| - 1].depth;
        var found := scopes.ResolveWithDepth(root.name);
        if found.Some? && found.value.0 < boundary && found.value.1.IsMutable() {
          Complain(CapturedAssignment, [root.name]);
        }
      }
    }

    method CallCheck(e: Expr)
      requires Valid() && e.Call?
      modifies this`errors, this`currentSpan
      ensures Valid() && Ctx() == old(Ctx()) && errors == old(errors) + ExpressionErrors(Ctx(), e)
      decreases e, 1, 0
    {
      CallCases(Ctx(), e);
      hide *;
      ghost var c, start := Ctx(), errors;
      OperandsOf(e, 0, 1);
      ArityCheck(e);
      OperandsOf(e, 1, |Operands(e)|);
      ArgumentCheck(e);
      Appended(start, OperandErrors(c, e, 0, 1), ArityErrors(c, e), OperandErrors(c, e, 1, |Operands(e)|), ArgumentErrors(c, e, |e.arguments|));
    }

    method Called(e: Expr) returns (symbol: Option<Symbol>)
      requires Valid() && e.Call?
      ensures symbol == CalledSymbol(Ctx(), e)
    {
      symbol := None;
      var callee := e.callee.Unspanned();
      if callee.Identifier? {
        var found := scopes.Resolve(callee.name);
        symbol := if found.Some? && found.value.FunctionSymbol? then found else None;
      }
    }

    method ArityCheck(e: Expr)
      requires Valid() && e.Call?
      modifies this`errors
      ensures Valid() && Ctx() == old(Ctx()) && errors == old(errors) + ArityErrors(Ctx(), e)
    {
      var symbol := Called(e);
      if symbol.Some? && symbol.value.FunctionSymbol? && symbol.value.arity != |e.arguments| {
        Complain(WrongArgumentCount, [if e.callee.Unspanned().Identifier? then e.callee.Unspanned().name else ""]);
      }
    }

    method ArgumentCheck(e: Expr)
      requires Valid() && e.Call?
      modifies this`errors, this`currentSpan
      ensures Valid() && Ctx() == old(Ctx()) && errors == old(errors) + ArgumentErrors(Ctx(), e, |e.arguments|)
    {
      hide CheckContractErrors, CalledSymbol;
      var symbol := Called(e);
      for i := 0 to |e.arguments|
        invariant Valid() && Ctx() == old(Ctx()) && errors == old(errors) + ArgumentErrors(Ctx(), e, i)
      {
        if symbol.Some? && symbol.value.FunctionSymbol? && i < |symbol.value.parameters| {
          CheckType(e.arguments[i], symbol.value.parameters[i]);
        }
      }
    }

    // ----- statements -----

    method TypeDeclaration(name: string, fields: seq<TypeField>)
      requires Valid()
      modifies this`errors, this`currentSpan, this`declaredTypes
      ensures Valid() && Ctx() == WithTypes(old(Ctx()), {name})
      ensures errors == old(errors) + TypeDeclErrors(old(Ctx()), name, fields)
    {
      hide Reaches, AnnotationErrors, IsReserved, BuiltinScope;
      ghost var c, start := Ctx(), errors;
      if |scopes.stack| != 2 || functionDepth != 0 {
        Complain(InvalidTypeDeclaration, []);
      }
      if IsReserved(name) {
        Complain(InvalidTypeDeclaration, [name]);
      }
      if name in declaredTypes {
        Complain(DuplicateDeclaration, [name]);
      }
      ghost var placed := DeclarationErrors(c, name);
      Appended(start, When(|c.scopes| != 2 || c.functionDepth != 0, Report(c, InvalidTypeDeclaration, [])),
               When(IsReserved(name), Report(c, InvalidTypeDeclaration, [name])),
               When(name in c.declared, Report(c, DuplicateDeclaration, [name])), []);
      assert errors == start + placed;
      DeclaredFields(fields);
      var cyclic := HasRequiredCycle(types, name);
      if cyclic {
        Complain(InvalidTypeDeclaration, [name, name]);
      }
      declaredTypes := declaredTypes + {name};
      Appended(start, placed, TypeFieldErrors(c, fields, |fields|),
               When(CyclicName(c.types, name), Report(c, InvalidTypeDeclaration, [name, name])), []);
    }

    method DeclaredFields(fields: seq<TypeField>)
      requires Valid()
      modifies this`errors, this`currentSpan
      ensures Valid() && Ctx() == old(Ctx()) && errors == old(errors) + TypeFieldErrors(Ctx(), fields, |fields|)
    {
      hide AnnotationErrors;
      var names: set<string> := {};
      for i := 0 to |fields|
        invariant Valid() && Ctx() == old(Ctx()) && errors == old(errors) + TypeFieldErrors(Ctx(), fields, i)
        invariant forall name :: name in names <==> exists k | 0 <= k < i :: fields[k].name == name
      {
        ghost var before := errors;
        if fields[i].name in names {
          Complain(DuplicateDeclaration, [fields[i].name]);
        }
        names := names + {fields[i].name};
        var _ := ResolveType(fields[i].annotation);
        Appended(old(errors), TypeFieldErrors(Ctx(), fields, i),
                 When(exists k | 0 <= k < i :: fields[k].name == fields[i].name, Report(Ctx(), DuplicateDeclaration, [fields[i].name])),
                 AnnotationErrors(Ctx(), fields[i].annotation), []);
      }
    }

    /** Declare the functions of a list before anything in it is checked. */
    method HoistFunctions(stmts: seq<Stmt>)
      requires Valid()
      modifies this`errors, this`currentSpan, scopes
      ensures Valid() && Ctx() == Hoist(old(Ctx()), stmts, |stmts|)
      ensures errors == old(errors) + HoistErrors(old(Ctx()), stmts, |stmts|)
    {
      hide Declare, DeclareErrors, ParameterAnnotationErrors, OptionalAnnotationErrors;
      ghost var c := Ctx();
      for i := 0 to |stmts|
        invariant Valid() && Ctx() == Hoist(c, stmts, i) && errors == old(errors) + HoistErrors(c, stmts, i)
      {
        var s := stmts[i].Unspanned();
        if s.Function? {
          HoistKeeps(c, stmts, i);
          ghost var start := errors;
          var previous := currentSpan;
          currentSpan := stmts[i].Where().Or(previous);
          HoistFunction(s);
          currentSpan := previous;
          DeclareIgnoresSpan(Hoist(c, stmts, i), Here(Hoist(c, stmts, i), stmts[i].Where()).span, s.name, SymbolOfFunction(types, s));
          Appended(old(errors), HoistErrors(c, stmts, i), FunctionHoistErrors(Here(Hoist(c, stmts, i), stmts[i].Where()), s), [], []);
        }
      }
    }

    method HoistFunction(s: Stmt)
      requires Valid() && s.Function?
      modifies this`errors, this`currentSpan, scopes
      ensures Valid() && Ctx() == Declare(old(Ctx()), s.name, SymbolOfFunction(types, s))
      ensures errors == old(errors) + FunctionHoistErrors(old(Ctx()), s)
    {
      hide Declare, DeclareErrors, OptionalAnnotationErrors, ParameterTypes, ResolveAnnotation, Report;
      ghost var c, start := Ctx(), errors;
      var resolved: seq<Option<ResolvedType>> := [];
      for i := 0 to |s.parameters|
        invariant Valid() && Ctx() == c && errors == start + ParameterAnnotationErrors(c, s.parameters, i)
        invariant resolved == ParameterTypes(types, s.parameters)[..i]
      {
        var t := ResolveOptionalType(s.parameters[i].annotation);
        resolved := resolved + [t];
      }
      var result := ResolveOptionalType(s.result);
      assert resolved == ParameterTypes(types, s.parameters);
      DeclareSymbol(s.name, FunctionSymbol(|s.parameters|, resolved, result));
      Appended(start, ParameterAnnotationErrors(c, s.parameters, |s.parameters|), OptionalAnnotationErrors(c, s.result), DeclareErrors(c, s.name), []);
    }

    /** Hoist, then check the statements in order. */
    method StatementList(body: Stmt)
      requires Valid() && !body.LocatedStmt?
      modifies this, scopes
      ensures Valid() && Inside(old(Ctx()), Ctx(), TypeNames(body))
      ensures errors == old(errors) + BodyErrors(old(Ctx()), body)
      decreases body, if body.Block? then 0 else 2, 0
    {
      hide Hoist, HoistErrors, AfterStatement, StatementErrors, Inside, TypeNames;
      ghost var c, start := Ctx(), errors;
      var stmts := Contents(body);
      ghost var h := Hoist(c, stmts, |stmts|);
      HoistFunctions(stmts);
      ghost var hoisted := errors;
      for i := 0 to |stmts|
        invariant Valid() && Ctx() == ContextAt(h, stmts, i) && errors == hoisted + SequenceErrors(h, body, i)
      {
        Statement(stmts[i]);
        Appended(hoisted, SequenceErrors(h, body, i), StatementErrors(ContextAt(h, stmts, i), stmts[i]), [], []);
      }
      Appended(start, HoistErrors(c, stmts, |stmts|), SequenceErrors(h, body, |stmts|), [], []);
      ListInside(c, body);
    }

    method BodyInCurrentScope(body: Stmt)
      requires Valid()
      modifies this, scopes
      ensures Valid() && Inside(old(Ctx()), Ctx(), TypeNames(body))
      ensures errors == old(errors) + BodyErrors(old(Ctx()), body)
      decreases body, 3
    {
      hide SequenceErrors, HoistErrors;
      if body.LocatedStmt? {
        var previous := currentSpan;
        currentSpan := Some(body.span);
        BodyInCurrentScope(body.inner);
        currentSpan := previous;
      } else {
        StatementList(body);
      }
    }

    method ScopedBody(body: Stmt)
      requires Valid()
      modifies this, scopes
      ensures Valid() && Ctx() == WithTypes(old(Ctx()), TypeNames(body))
      ensures errors == old(errors) + BodyErrors(EnterScope(old(Ctx())), body)
      decreases body, 4
    {
      hide BodyErrors, TypeNames;
      ghost var outer := scopes.stack;
      scopes.Enter();
      BodyInCurrentScope(body);
      scopes.Leave();
      assert scopes.stack == outer;
    }

    method Statement(s: Stmt)
      requires Valid()
      modifies this, scopes
      ensures Valid() && Ctx() == AfterStatement(old(Ctx()), s)
      ensures errors == old(errors) + StatementErrors(old(Ctx()), s)
      decreases s, 1
    {
      hide ExpressionErrors, BodyErrors, TypeDeclErrors, LetErrors, ReturnErrors, BreakErrors, Declare;
      ghost var c := Ctx();
      if s.LocatedStmt? {
        var previous := currentSpan;
        currentSpan := Some(s.span);
        Statement(s.inner);
        currentSpan := previous;
        AfterLocated(c, s);
      } else if s.TypeDecl? {
        TypeDeclaration(s.name, s.fields);
      } else if s.Break? {
        BreakCheck();
      } else if s.Continue? {
        if loops == [] {
          Complain(ContinueOutsideLoop, []);
        }
      } else if s.Let? {
        LetCheck(s);
      } else if s.ExprStmt? {
        Expression(s.expression);
      } else if s.Return? {
        ReturnCheck(s.returned);
      } else {
        Compound(s);
      }
      if !s.LocatedStmt? && !s.Let? {
        NoLetAfter(c, s);
      }
    }

    /** Statements that contain others. */
    method Compound(s: Stmt)
      requires Valid() && (s.Block? || s.Function? || s.If? || s.While? || s.For? || s.Parallel? || s.Match?)
      modifies this, scopes
      ensures Valid() && Ctx() == WithTypes(old(Ctx()), TypeNames(s))
      ensures errors == old(errors) + StatementErrors(old(Ctx()), s)
      decreases s, 0, 2
    {
      hide ExpressionErrors, BodyErrors, ArmErrors;
      ghost var c, start := Ctx(), errors;
      if s.Block? {
        BlockStatement(s);
      } else if s.Function? {
        FunctionCheck(s);
      } else if s.If? {
        IfCheck(s);
      } else if s.While? {
        Expression(s.condition);
        loops := loops + [SerialLoop];
        ScopedBody(s.body);
        loops := loops[..|loops| - 1];
        Appended(start, ExpressionErrors(c, s.condition), BodyErrors(LoopContext(c, SerialLoop), s.body), [], []);
      } else if s.For? || s.Parallel? {
        IterationCheck(s);
      } else {
        Expression(s.subject);
        MatchArms(s);
        Appended(start, ExpressionErrors(c, s.subject), ArmErrors(c, s, |s.arms|), [], []);
      }
    }

    method BlockStatement(s: Stmt)
      requires Valid() && s.Block?
      modifies this, scopes
      ensures Valid() && Ctx() == WithTypes(old(Ctx()), TypeNames(s))
      ensures errors == old(errors) + BodyErrors(EnterScope(old(Ctx())), s)
      decreases s, 0, 1
    {
      hide BodyErrors, TypeNames;
      ghost var outer := scopes.stack;
      scopes.Enter();
      StatementList(s);
      scopes.Leave();
      assert scopes.stack == outer;
    }

    method MatchArms(s: Stmt)
      requires Valid() && s.Match?
      modifies this, scopes
      ensures Valid() && Ctx() == WithTypes(old(Ctx()), ArmTypeNames(s, |s.arms|))
      ensures errors == old(errors) + ArmErrors(old(Ctx()), s, |s.arms|)
      decreases s, 0, 1
    {
      hide BodyErrors, TypeNames;
      ghost var c, start := Ctx(), errors;
      assert c == WithTypes(c, {});
      for i := 0 to |s.arms|
        invariant Valid() && Ctx() == WithTypes(c, ArmTypeNames(s, i)) && errors == start + ArmErrors(c, s, i)
      {
        ScopedBody(s.arms[i].body);
        assert c.declared + ArmTypeNames(s, i) + TypeNames(s.arms[i].body) == c.declared + ArmTypeNames(s, i + 1);
        Appended(start, ArmErrors(c, s, i), BodyErrors(EnterScope(WithTypes(c, ArmTypeNames(s, i))), s.arms[i].body), [], []);
      }
    }

    method IfCheck(s: Stmt)
      requires Valid() && s.If?
      modifies this, scopes
      ensures Valid() && Ctx() == WithTypes(old(Ctx()), TypeNames(s))
      ensures errors == old(errors) + StatementErrors(old(Ctx()), s)
      decreases s, 0, 1
    {
      hide ExpressionErrors, BodyErrors;
      ghost var c, start := Ctx(), errors;
      Expression(s.condition);
      ScopedBody(s.thenBranch);
      if s.elseBranch.Some? {
        ScopedBody(s.elseBranch.value);
        assert c.declared + TypeNames(s.thenBranch) + TypeNames(s.elseBranch.value) == c.declared + TypeNames(s);
        Appended(start, ExpressionErrors(c, s.condition), BodyErrors(EnterScope(c), s.thenBranch),
                 BodyErrors(EnterScope(WithTypes(c, TypeNames(s.thenBranch))), s.elseBranch.value), []);
      } else {
        Appended(start, ExpressionErrors(c, s.condition), BodyErrors(EnterScope(c), s.thenBranch), [], []);
      }
    }

    method BreakCheck()
      requires Valid()
      modifies this`errors
      ensures Valid() && Ctx() == old(Ctx()) && errors == old(errors) + BreakErrors(Ctx())
    {
      if loops == [] {
        Complain(BreakOutsideLoop, []);
      } else if loops[|loops| - 1].ParallelLoop? {
        Complain(BreakAcrossParallel, []);
      }
    }

    method ReturnCheck(returned: Option<Expr>)
      requires Valid()
      modifies this`errors, this`currentSpan
      ensures Valid() && Ctx() == old(Ctx()) && errors == old(errors) + ReturnErrors(Ctx(), returned)
    {
      hide ExpressionErrors, CheckContractErrors;
      ghost var c, start := Ctx(), errors;
      if parallelBoundaries != [] && parallelBoundaries[|parallelBoundaries| - 1].functions == functionDepth {
        Complain(ReturnAcrossParallel, []);
      } else if functionDepth == 0 {
        Complain(ReturnOutsideFunction, []);
      }
      ghost var placed := errors[|start|..];
      if returned.Some? {
        Expression(returned.value);
      }
      CheckType(if returned.Some? then returned.value else NullLit, returnType);
      Appended(start, placed, if returned.Some? then ExpressionErrors(c, returned.value) else [],
               CheckContractErrors(c, if returned.Some? then returned.value else NullLit, c.result), []);
    }

    /** The name is declared after its initializer is checked. */
    method LetCheck(s: Stmt)
      requires Valid() && s.Let?
      modifies this`errors, this`currentSpan, scopes
      ensures Valid() && Ctx() == AfterStatement(old(Ctx()), s)
      ensures errors == old(errors) + LetErrors(old(Ctx()), s)
    {
      hide ExpressionErrors, CheckContractErrors, OptionalAnnotationErrors, Declare, DeclareErrors;
      ghost var c, start := Ctx(), errors;
      Expression(s.value);
      var annotation := ResolveOptionalType(s.annotation);
      CheckType(s.value, annotation);
      DeclareSymbol(s.name, VariableSymbol(annotation));
      assert c == WithTypes(c, TypeNames(s));
      Appended(start, ExpressionErrors(c, s.value), OptionalAnnotationErrors(c, s.annotation),
               CheckContractErrors(c, s.value, ResolveAnnotation(c.types, s.annotation)), DeclareErrors(c, s.name));
    }

    /** Loops, return type and depth are replaced for the body and put back. */
    method FunctionCheck(s: Stmt)
      requires Valid() && s.Function?
      modifies this, scopes
      ensures Valid() && Ctx() == WithTypes(old(Ctx()), TypeNames(s))
      ensures errors == old(errors) + StatementErrors(old(Ctx()), s)
      decreases s, 0, 1
    {
      hide BodyErrors, DeclareErrors, Declare;
      ghost var c, start, outer := Ctx(), errors, scopes.stack;
      scopes.Enter();
      functionDepth := functionDepth + 1;
      var enclosingLoops, enclosingReturn := loops, returnType;
      loops, returnType := [], ResolveAnnotation(types, s.result);
      ghost var inside := FunctionContext(c, s);
      assert Ctx() == inside;
      for i := 0 to |s.parameters|
        invariant Valid() && Ctx() == DeclareParameters(inside, s.parameters, i)
        invariant errors == start + ParameterErrors(inside, s.parameters, i)
      {
        ghost var before := ParameterErrors(inside, s.parameters, i);
        DeclareSymbol(s.parameters[i].name, ParameterSymbol(ResolveAnnotation(types, s.parameters[i].annotation)));
        Appended(start, before, DeclareErrors(DeclareParameters(inside, s.parameters, i), s.parameters[i].name), [], []);
      }
      ParametersInside(inside, s.parameters, |s.parameters|);
      BodyInCurrentScope(s.body);
      loops, returnType := enclosingLoops, enclosingReturn;
      functionDepth := functionDepth - 1;
      scopes.Leave();
      assert scopes.stack == outer;
      Appended(start, ParameterErrors(inside, s.parameters, |s.parameters|), BodyErrors(InsideFunction(c, s), s.body), [], []);
    }

    method IterationCheck(s: Stmt)
      requires Valid() && (s.For? || s.Parallel?)
      modifies this, scopes
      ensures Valid() && Ctx() == WithTypes(old(Ctx()), TypeNames(s))
      ensures errors == old(errors) + StatementErrors(old(Ctx()), s)
      decreases s, 0, 1
    {
      hide BodyErrors, ExpressionErrors;
      ghost var c, start, outer := Ctx(), errors, scopes.stack;
      Expression(s.iterable);
      loops := loops + [if s.For? then SerialLoop else ParallelLoop];
      if s.Parallel? {
        var depth := scopes.Depth();
        parallelBoundaries := parallelBoundaries + [Boundary(depth, functionDepth)];
      }
      scopes.Enter();
      ghost var entered := errors;
      DeclareSymbol(s.variable, LoopSymbol);
      assert errors == entered;
      assert Ctx() == IterationContext(c, s);
      BodyInCurrentScope(s.body);
      scopes.Leave();
      assert scopes.stack == outer;
      loops := loops[..|loops| - 1];
      if s.Parallel? {
        parallelBoundaries := parallelBoundaries[..|parallelBoundaries| - 1];
      }
      Appended(start, ExpressionErrors(c, s.iterable), BodyErrors(IterationContext(c, s), s.body), [], []);
    }
  }

  /** `Analyze` over a whole program: fresh scopes, then the top-level list in a scope of its own. */
  method AnalyzeProgram(statements: seq<Stmt>) returns (errors: Errors)
    ensures errors == Analyze(statements)
  {
    hide BodyErrors, Definitions, BuiltinScope;
    var types := NewRegistry(statements);
    var analyzer := new Analyzer(types);
    analyzer.scopes.Enter();
    assert analyzer.Ctx() == TopContext(types);
    analyzer.StatementList(Block(statements));
    errors := analyzer.errors;
  }

  // ----- contexts -----

  /** After a body: the same context, more type names, and only the innermost scope changed. */
  ghost predicate Inside(c: Context, d: Context, names: set<string>) {
    && d == WithTypes(c, names).(scopes := d.scopes)
    && |d.scopes| == |c.scopes|
    && (c.scopes != [] ==> d.scopes[..|d.scopes| - 1] == c.scopes[..|c.scopes| - 1])
  }

  function ListTypeNames(stmts: seq<Stmt>, n: nat): set<string>
    requires n <= |stmts|
  {
    if n == 0 then {} else ListTypeNames(stmts, n - 1) + TypeNames(stmts[n - 1])
  }

  lemma {:induction false} BlockNames(s: Stmt, n: nat)
    requires s.Block? && n <= |s.statements|
    ensures BlockTypeNames(s, n) == ListTypeNames(s.statements, n)
  {
    hide TypeNames;
    if n > 0 {
      BlockNames(s, n - 1);
    }
  }

  lemma {:induction false} ContextAtInside(c: Context, stmts: seq<Stmt>, n: nat)
    requires n <= |stmts|
    ensures Inside(c, ContextAt(c, stmts, n), ListTypeNames(stmts, n))
  {
    hide TypeNames;
    if n == 0 {
      assert c == WithTypes(c, {});
    } else {
      ContextAtInside(c, stmts, n - 1);
      var before := ContextAt(c, stmts, n - 1);
      DeclareInside(WithTypes(before, TypeNames(stmts[n - 1])), stmts[n - 1]);
      assert c.declared + ListTypeNames(stmts, n - 1) + TypeNames(stmts[n - 1]) == c.declared + ListTypeNames(stmts, n);
    }
  }

  lemma DeclareInside(c: Context, s: Stmt)
    ensures s.Unspanned().Let? ==>
              var symbol := VariableSymbol(ResolveAnnotation(c.types, s.Unspanned().annotation));
              Inside(c, Declare(c, s.Unspanned().name, symbol), {})
  {
    assert c == WithTypes(c, {});
  }

  lemma {:induction false} HoistInside(c: Context, stmts: seq<Stmt>, n: nat)
    requires n <= |stmts|
    ensures Inside(c, Hoist(c, stmts, n), {})
  {
    if n == 0 {
      assert c == WithTypes(c, {});
    } else {
      HoistInside(c, stmts, n - 1);
    }
  }

  lemma {:induction false} ParametersInside(c: Context, parameters: seq<Parameter>, n: nat)
    requires n <= |parameters|
    ensures Inside(c, DeclareParameters(c, parameters, n), {})
  {
    if n == 0 {
      assert c == WithTypes(c, {});
    } else {
      ParametersInside(c, parameters, n - 1);
    }
  }

  /** The list of a body, hoisted and walked. */
  lemma ListInside(c: Context, body: Stmt)
    requires !body.LocatedStmt?
    ensures var stmts := Contents(body);
            Inside(c, ContextAt(Hoist(c, stmts, |stmts|), stmts, |stmts|), TypeNames(body))
  {
    var stmts := Contents(body);
    HoistInside(c, stmts, |stmts|);
    ContextAtInside(Hoist(c, stmts, |stmts|), stmts, |stmts|);
    ContentsNames(body);
  }

  lemma ContentsNames(body: Stmt)
    requires !body.LocatedStmt?
    ensures ListTypeNames(Contents(body), |Contents(body)|) == TypeNames(body)
  {
    if body.Block? {
      BlockNames(body, |body.statements|);
    } else {
      assert ListTypeNames([body], 0) == {};
    }
  }

  lemma AfterLocated(c: Context, s: Stmt)
    requires s.LocatedStmt?
    ensures AfterStatement(c.(span := Some(s.span)), s.inner).(span := c.span) == AfterStatement(c, s)
  {
  }

  lemma NoLetAfter(c: Context, s: Stmt)
    requires !s.LocatedStmt? && !s.Let?
    ensures AfterStatement(c, s) == WithTypes(c, TypeNames(s))
    ensures s.TypeDecl? ==> TypeNames(s) == {s.name}
    ensures s.Break? || s.Continue? || s.ExprStmt? || s.Return? ==> WithTypes(c, TypeNames(s)) == c
  {
    assert c == WithTypes(c, {});
  }

  lemma DeclareIgnoresSpan(c: Context, span: Option<Span>, name: string, symbol: Symbol)
    ensures Declare(c.(span := span), name, symbol).(span := c.span) == Declare(c, name, symbol)
  {
  }

  // ----- the errors of each kind of expression -----

  lemma Appended(start: Errors, a: Errors, b: Errors, c: Errors, d: Errors)
    ensures start + a + b + c + d == start + (a + b + c + d)
    ensures start + [] == start && a + b + c + [] == a + b + c
    ensures start + a + b + c == start + (a + b + c) && start + a + b == start + (a + b)
  {
  }

  lemma ExpressionErrorsCases(c: Context, e: Expr)
    ensures e.Located? ==> ExpressionErrors(c, e) == ExpressionErrors(c.(span := Some(e.span)), e.inner)
    ensures e.Identifier? ==> ExpressionErrors(c, e) == UndefinedErrors(c, e.name)
    ensures e.Binary? ==> ExpressionErrors(c, e) == ExpressionErrors(c, e.left) + ExpressionErrors(c, e.right)
    ensures e.Property? ==> ExpressionErrors(c, e) == ExpressionErrors(c, e.owner) + CheckMemberErrors(c, e.owner, e.name)
    ensures e.Index? ==>
              ExpressionErrors(c, e) == ExpressionErrors(c, e.owner) + ExpressionErrors(c, e.index)
                + (if e.index.Unspanned().StringLit? then CheckMemberErrors(c, e.owner, e.index.Unspanned().text) else [])
    ensures !e.Located? && !e.Identifier? && !e.Construct? && !e.Assignment? && !e.Call? && !e.Binary? && !e.Property? && !e.Index? ==>
              ExpressionErrors(c, e) == OperandErrors(c, e, 0, |Operands(e)|)
  {
    hide CheckMemberErrors, OperandErrors, UndefinedErrors, FieldErrors, MissingErrors, ArityErrors, ArgumentErrors, AssignmentErrors;
  }

  lemma ConstructCases(c: Context, e: Expr)
    requires e.Construct?
    ensures ExpressionErrors(c, e)
         == When(ConstructedType(c, e.name).None?, Report(c, InvalidConstructor, [e.name]))
            + FieldErrors(c, e, |e.fields|) + MissingErrors(c, e, |RequiredFields(c, e.name)|)
  {
    hide FieldErrors, MissingErrors;
  }

  lemma AssignmentCases(c: Context, e: Expr)
    requires e.Assignment?
    ensures ExpressionErrors(c, e)
         == TargetErrors(Here(c, e.target.Where()), e.target) + CaptureErrors(Here(c, e.target.Where()), e.target)
            + ExpressionErrors(c, e.value) + CheckContractErrors(c, e.value, TargetContract(c, e.target))
  {
    hide TargetErrors, CaptureErrors, CheckContractErrors, TargetContract;
  }

  lemma CallCases(c: Context, e: Expr)
    requires e.Call?
    ensures ExpressionErrors(c, e)
         == OperandErrors(c, e, 0, 1) + ArityErrors(c, e) + OperandErrors(c, e, 1, |Operands(e)|)
            + ArgumentErrors(c, e, |e.arguments|)
  {
    hide OperandErrors, ArityErrors, ArgumentErrors;
  }

  lemma NothingMissing(c: Context, e: Expr)
    requires e.Construct? && ConstructedType(c, e.name).None?
    ensures MissingErrors(c, e, |RequiredFields(c, e.name)|) == []
  {
  }

  lemma {:induction false} RootUnspanned(e: Expr)
    ensures RootOf(e) == RootOf(e.Unspanned())
  {
    if e.Located? {
      RootUnspanned(e.inner);
    }
  }
}
