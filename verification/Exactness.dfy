/** The analyzer reports exactly the defects. */
module Exactness {
  import opened Wrappers
  import opened Source
  import opened Ast
  import opened Types
  import opened Analysis
  import opened Defects
  import opened Diagnoses

  // ----- expressions -----

  /** All that expressions depend on. */
  predicate Agrees(c: Context, g: Site) {
    c.types == g.types && c.span == g.at && SameScopes(c.scopes, g.layers) && c.boundaries == BoundariesOf(g.layers)
  }

  lemma UndefinedIff(c: Context, g: Site, name: string, x: SemanticError)
    requires Agrees(c, g)
    ensures Reports(UndefinedErrors(c, name), x) <==> x == SemanticError(UndefinedSymbol, [name], g.at) && !Seen(g, name)
  {
    hide Seen;
    FoundIff(c.scopes, g, name);
    ReportsThis(c, UndefinedSymbol, [name], LookUpSymbol(c.scopes, name).None?, x);
  }

  lemma {:induction false} ExprIff(c: Context, g: Site, e: Expr, x: SemanticError)
    requires Agrees(c, g)
    ensures Reports(ExpressionErrors(c, e), x) <==> ExprDefect(g, e, x)
    decreases e, 1, 0
  {
    match e
    case Located(span, inner) => ExprIff(c.(span := Some(span)), At(g, Some(span)), inner, x);
    case Identifier(name) => UndefinedIff(c, g, name, x);
    case Construct(_, _) => ConstructIff(c, g, e, x);
    case Assignment(_, _) => AssignmentIff(c, g, e, x);
    case Call(_, _) => CallIff(c, g, e, x);
    case Binary(left, _, right) =>
      ExprIff(c, g, left, x);
      ExprIff(c, g, right, x);
      hide ExprDefect, Reports;
      ReportsBoth(ExpressionErrors(c, left), ExpressionErrors(c, right), x);
      BinaryParts(c, g, e, x);
    case Property(owner, name) =>
      ExprIff(c, g, owner, x);
      NoMemberIff(c, g, owner, name, x);
      hide Reports, NoMember, CheckMemberErrors;
      ReportsBoth(ExpressionErrors(c, owner), CheckMemberErrors(c, owner, name), x);
    case Index(_, _) => IndexIff(c, g, e, x);
    case _ => OthersIff(c, g, e, x);
  }

  lemma BinaryParts(c: Context, g: Site, e: Expr, x: SemanticError)
    requires e.Binary?
    ensures ExprDefect(g, e, x) <==> ExprDefect(g, e.left, x) || ExprDefect(g, e.right, x)
    ensures ExpressionErrors(c, e) == ExpressionErrors(c, e.left) + ExpressionErrors(c, e.right)
  {
  }

  lemma {:induction false} IndexIff(c: Context, g: Site, e: Expr, x: SemanticError)
    requires Agrees(c, g) && e.Index?
    ensures Reports(ExpressionErrors(c, e), x) <==> ExprDefect(g, e, x)
    decreases e, 0, 0
  {
    ExprIff(c, g, e.owner, x);
    ExprIff(c, g, e.index, x);
    var literal := e.index.Unspanned().StringLit?;
    var member := if literal then CheckMemberErrors(c, e.owner, e.index.Unspanned().text) else [];
    if literal {
      NoMemberIff(c, g, e.owner, e.index.Unspanned().text, x);
    } else {
      ReportsThis(c, UndefinedSymbol, [], false, x);
    }
    IndexParts(c, g, e, x);
    hide Reports, NoMember, CheckMemberErrors, ExprDefect, ExpressionErrors;
    ReportsBoth(ExpressionErrors(c, e.owner), ExpressionErrors(c, e.index), x);
    ReportsBoth(ExpressionErrors(c, e.owner) + ExpressionErrors(c, e.index), member, x);
  }

  lemma IndexParts(c: Context, g: Site, e: Expr, x: SemanticError)
    requires e.Index?
    ensures ExpressionErrors(c, e) ==
            ExpressionErrors(c, e.owner) + ExpressionErrors(c, e.index)
            + (if e.index.Unspanned().StringLit? then CheckMemberErrors(c, e.owner, e.index.Unspanned().text) else [])
    ensures ExprDefect(g, e, x) <==>
            || ExprDefect(g, e.owner, x)
            || ExprDefect(g, e.index, x)
            || (e.index.Unspanned().StringLit? && NoMember(g, e.owner, e.index.Unspanned().text, x))
  {
    hide NoMember, CheckMemberErrors;
  }

  /** Operands `lo..hi` of a node. */
  ghost predicate OperandsDefect(g: Site, e: Expr, lo: nat, hi: nat, x: SemanticError)
    requires hi <= |Operands(e)|
  {
    exists i | lo <= i < hi :: ExprDefect(g, Operands(e)[i], x)
  }

  lemma {:induction false} OperandsIff(c: Context, g: Site, e: Expr, lo: nat, hi: nat, x: SemanticError)
    requires Agrees(c, g) && hi <= |Operands(e)|
    ensures Reports(OperandErrors(c, e, lo, hi), x) <==> OperandsDefect(g, e, lo, hi, x)
    decreases e, 0, hi
  {
    hide Reports, ExprDefect, ExpressionErrors;
    if hi <= lo {
      ReportsThis(c, UndefinedSymbol, [], false, x);
    } else {
      OperandsIff(c, g, e, lo, hi - 1, x);
      ExprIff(c, g, Operands(e)[hi - 1], x);
      ReportsBoth(OperandErrors(c, e, lo, hi - 1), ExpressionErrors(c, Operands(e)[hi - 1]), x);
    }
  }

  lemma {:induction false} OthersIff(c: Context, g: Site, e: Expr, x: SemanticError)
    requires Agrees(c, g)
    requires !e.Located? && !e.Identifier? && !e.Construct? && !e.Assignment? && !e.Call? && !e.Binary? && !e.Property? && !e.Index?
    ensures Reports(ExpressionErrors(c, e), x) <==> ExprDefect(g, e, x)
    decreases e, 1, 0, 0
  {
    OperandsIff(c, g, e, 0, |Operands(e)|, x);
    hide Reports, Operands, OperandErrors;
  }

  // ----- constructors -----

  ghost predicate FieldsDefect(g: Site, e: Expr, n: nat, x: SemanticError)
    requires e.Construct? && n <= |e.fields|
  {
    exists i | 0 <= i < n :: ExprDefect(g, e.fields[i].value, x) || FieldDefect(g, e.name, e.fields, i, x)
  }

  lemma FieldIff(c: Context, g: Site, e: Expr, i: nat, x: SemanticError)
    requires Agrees(c, g) && e.Construct? && i < |e.fields|
    ensures Reports(FieldCheckErrors(c, e, i), x) <==> FieldDefect(g, e.name, e.fields, i, x)
  {
    hide Reports, Typed, CheckContractErrors, FindField, FieldType, Clash;
    var key, id := e.fields[i].key, ConstructedType(c, e.name);
    var repeated := key in Keys(e.fields)[..i];
    assert repeated <==> exists j | 0 <= j < i :: e.fields[j].key == key;
    var first := When(repeated, Report(c, InvalidConstructor, [key]));
    ReportsThis(c, InvalidConstructor, [key], repeated, x);
    ReportsThis(c, InvalidConstructor, [e.name, key], true, x);
    if IsRecord(g, e.name) {
      var declared := g.types[RecordId(g, e.name)].fields;
      ClashIff(c, g, e.fields[i].value, FieldType(c.types, declared, key), x);
      ReportsBoth(first, Report(c, InvalidConstructor, [e.name, key]), x);
      ReportsBoth(first, CheckContractErrors(c, e.fields[i].value, FieldType(c.types, declared, key)), x);
    } else {
      ReportsBoth(first, [], x);
    }
  }

  lemma {:induction false} FieldsIff(c: Context, g: Site, e: Expr, n: nat, x: SemanticError)
    requires Agrees(c, g) && e.Construct? && n <= |e.fields|
    ensures Reports(FieldErrors(c, e, n), x) <==> FieldsDefect(g, e, n, x)
    decreases e, 0, n
  {
    hide Reports, ExprDefect, ExpressionErrors, FieldDefect, FieldCheckErrors;
    if n == 0 {
      ReportsThis(c, UndefinedSymbol, [], false, x);
    } else {
      assert Operands(e)[n - 1] == e.fields[n - 1].value;
      FieldsIff(c, g, e, n - 1, x);
      ExprIff(c, g, e.fields[n - 1].value, x);
      FieldIff(c, g, e, n - 1, x);
      var front, value := FieldErrors(c, e, n - 1), ExpressionErrors(c, e.fields[n - 1].value);
      ReportsBoth(front, value, x);
      ReportsBoth(front + value, FieldCheckErrors(c, e, n - 1), x);
    }
  }

  predicate MissingAmong(g: Site, e: Expr, n: nat, x: SemanticError)
    requires e.Construct? && IsRecord(g, e.name) && n <= |g.types[RecordId(g, e.name)].fields|
  {
    exists j | 0 <= j < n ::
      var key := g.types[RecordId(g, e.name)].fields[j].name;
      x == SemanticError(InvalidConstructor, [key], g.at) && forall i | 0 <= i < |e.fields| :: e.fields[i].key != key
  }

  lemma {:induction false} MissingIff(c: Context, g: Site, e: Expr, n: nat, x: SemanticError)
    requires Agrees(c, g) && e.Construct? && IsRecord(g, e.name) && n <= |g.types[RecordId(g, e.name)].fields|
    requires RequiredFields(c, e.name) == g.types[RecordId(g, e.name)].fields
    ensures Reports(MissingErrors(c, e, n), x) <==> MissingAmong(g, e, n, x)
  {
    hide Reports;
    if n == 0 {
      ReportsThis(c, UndefinedSymbol, [], false, x);
    } else {
      MissingIff(c, g, e, n - 1, x);
      var key := RequiredFields(c, e.name)[n - 1].name;
      ReportsThis(c, InvalidConstructor, [key], key !in Keys(e.fields), x);
      ReportsBoth(MissingErrors(c, e, n - 1), When(key !in Keys(e.fields), Report(c, InvalidConstructor, [key])), x);
      KeyMissing(e.fields, key);
    }
  }

  lemma KeyMissing(fields: seq<Field>, key: string)
    ensures key !in Keys(fields) <==> forall i | 0 <= i < |fields| :: fields[i].key != key
  {
    if i :| 0 <= i < |fields| && fields[i].key == key {
      assert Keys(fields)[i] == key;
    }
  }

  lemma {:induction false} ConstructIff(c: Context, g: Site, e: Expr, x: SemanticError)
    requires Agrees(c, g) && e.Construct?
    ensures Reports(ExpressionErrors(c, e), x) <==> ExprDefect(g, e, x)
    decreases e, 0, |e.fields| + 1
  {
    var unknown := When(ConstructedType(c, e.name).None?, Report(c, InvalidConstructor, [e.name]));
    var fields, missing := FieldErrors(c, e, |e.fields|), MissingErrors(c, e, |RequiredFields(c, e.name)|);
    assert ExpressionErrors(c, e) == unknown + fields + missing;
    ConstructParts(g, e, x);
    hide Reports, ExprDefect, ExpressionErrors, FieldErrors, MissingErrors, FieldDefect, FieldsDefect;
    ReportsThis(c, InvalidConstructor, [e.name], ConstructedType(c, e.name).None?, x);
    FieldsIff(c, g, e, |e.fields|, x);
    if IsRecord(g, e.name) {
      MissingIff(c, g, e, |RequiredFields(c, e.name)|, x);
    } else {
      NothingMissing(c, e);
      ReportsThis(c, UndefinedSymbol, [], false, x);
    }
    ReportsBoth(unknown, fields, x);
    ReportsBoth(unknown + fields, missing, x);
  }

  lemma NothingMissing(c: Context, e: Expr)
    requires e.Construct?
    ensures MissingErrors(c, e, 0) == []
  {
  }

  lemma ConstructParts(g: Site, e: Expr, x: SemanticError)
    requires e.Construct?
    ensures ExprDefect(g, e, x) <==>
            || (x == SemanticError(InvalidConstructor, [e.name], g.at) && !IsRecord(g, e.name))
            || FieldsDefect(g, e, |e.fields|, x)
            || (IsRecord(g, e.name) && MissingAmong(g, e, |g.types[RecordId(g, e.name)].fields|, x))
  {
    hide FieldDefect, IsRecord;
  }

  // ----- assignments -----

  lemma MutableIff(c: Context, g: Site, name: string, x: SemanticError)
    requires Agrees(c, g)
    ensures var symbol := LookUpSymbol(c.scopes, name);
            Reports(When(symbol.Some? && !symbol.value.IsMutable(), Report(c, ImmutableAssignment, [name])), x) <==>
            x == SemanticError(ImmutableAssignment, [name], g.at) && exists k: nat :: Visible(g, name, k) && !g.layers[k].names[name].IsMutable()
  {
    hide Reports;
    var symbol := LookUpSymbol(c.scopes, name);
    SymbolSeen(c, g, name);
    ReportsThis(c, ImmutableAssignment, [name], symbol.Some? && !symbol.value.IsMutable(), x);
  }

  /** The symbol the analyzer finds is the visible one. */
  lemma SymbolSeen(c: Context, g: Site, name: string)
    requires Agrees(c, g)
    ensures forall k: nat | Visible(g, name, k) :: LookUpSymbol(c.scopes, name) == Some(g.layers[k].names[name])
    ensures LookUpSymbol(c.scopes, name).Some? ==> Visible(g, name, LookUpDepth(c.scopes, name).value.0)
    ensures forall k: nat | Visible(g, name, k) :: LookUpDepth(c.scopes, name) == Some((k, g.layers[k].names[name]))
  {
    forall k: nat | Visible(g, name, k)
      ensures LookUpSymbol(c.scopes, name) == Some(g.layers[k].names[name])
      ensures LookUpDepth(c.scopes, name) == Some((k, g.layers[k].names[name]))
    {
      VisibleIff(c.scopes, g, name, k);
    }
    FoundIff(c.scopes, g, name);
  }

  lemma {:induction false} TargetIff(c: Context, g: Site, target: Expr, x: SemanticError)
    requires Agrees(c, g)
    ensures Reports(TargetErrors(c, target), x) <==> TargetDefect(g, target, x)
    decreases target, 2, 0
  {
    hide Reports, ExprDefect, ExpressionErrors, Visible, Seen, LookUpSymbol, UndefinedErrors;
    var bare := target.Unspanned();
    if bare.Identifier? {
      var symbol := LookUpSymbol(c.scopes, bare.name);
      UndefinedIff(c, g, bare.name, x);
      MutableIff(c, g, bare.name, x);
      ReportsBoth(UndefinedErrors(c, bare.name),
                  When(symbol.Some? && !symbol.value.IsMutable(), Report(c, ImmutableAssignment, [bare.name])), x);
      NamedTarget(c, g, target, x);
    } else {
      ExprIff(c, g, target, x);
      ReportsThis(c, InvalidAssignmentTarget, [], true, x);
      ReportsBoth(Report(c, InvalidAssignmentTarget, []), ExpressionErrors(c, target), x);
    }
  }

  lemma NamedTarget(c: Context, g: Site, target: Expr, x: SemanticError)
    requires target.Unspanned().Identifier?
    ensures var name := target.Unspanned().name;
            TargetDefect(g, target, x) <==>
              || (x == SemanticError(UndefinedSymbol, [name], g.at) && !Seen(g, name))
              || (x == SemanticError(ImmutableAssignment, [name], g.at)
                  && exists k: nat :: Visible(g, name, k) && !g.layers[k].names[name].IsMutable())
  {
    hide ExprDefect, Seen;
  }

  lemma CaptureIff(c: Context, g: Site, target: Expr, x: SemanticError)
    requires Agrees(c, g)
    ensures Reports(CaptureErrors(c, target), x) <==> Captured(g, target, x)
  {
    hide Reports, WorkerInside, Visible, LookUpDepth, LookUpSymbol, BoundariesOf;
    if RootOf(target).None? {
      ReportsThis(c, CapturedAssignment, [], false, x);
      return;
    }
    var root := RootOf(target).value;
    ReportsThis(c, CapturedAssignment, [root], CapturesRoot(c, target), x);
    SymbolSeen(c, g, root);
    LookUpFacts(c.scopes, root);
    BoundaryInside(g);
    VisibleLayers(g, root);
    if LookUpDepth(c.scopes, root).Some? {
      assert Visible(g, root, LookUpDepth(c.scopes, root).value.0);
    }
  }

  lemma VisibleLayers(g: Site, name: string)
    ensures forall k: nat | Visible(g, name, k) :: k < |g.layers| && name in g.layers[k].names
  {
  }

  lemma ContractedIff(c: Context, g: Site, target: Expr, t: ResolvedType)
    requires Agrees(c, g)
    ensures Contracted(g, target, t) <==> TargetContract(c, target) == Some(t)
  {
    hide Typed, KnownType, Resolve, Visible, LookUpDepth, LookUpSymbol;
    var bare := target.Unspanned();
    if bare.Property? || bare.Index? {
      var known := KnownType(c.types, c.scopes, target);
      forall name
        ensures Typed(g, target, name) <==> known == Some(name)
      {
        TypedIff(c.scopes, g, target, name);
      }
      if known.Some? {
        assert Typed(g, target, known.value);
      }
    } else if bare.Identifier? {
      SymbolSeen(c, g, bare.name);
      VisibleLayers(g, bare.name);
      LookUpFacts(c.scopes, bare.name);
      if LookUpSymbol(c.scopes, bare.name).Some? {
        assert Visible(g, bare.name, LookUpDepth(c.scopes, bare.name).value.0);
      }
    }
  }

  lemma {:induction false} AssignmentIff(c: Context, g: Site, e: Expr, x: SemanticError)
    requires Agrees(c, g) && e.Assignment?
    ensures Reports(ExpressionErrors(c, e), x) <==> ExprDefect(g, e, x)
    decreases e, 0, 0
  {
    var here := Here(c, e.target.Where());
    var a, b, v := TargetErrors(here, e.target), CaptureErrors(here, e.target), ExpressionErrors(c, e.value);
    var contract := TargetContract(c, e.target);
    var w := CheckContractErrors(c, e.value, contract);
    assert ExpressionErrors(c, e) == a + b + v + w;
    AssignmentParts(g, e, x);
    TargetIff(here, At(g, e.target.Where()), e.target, x);
    CaptureIff(here, At(g, e.target.Where()), e.target, x);
    ExprIff(c, g, e.value, x);
    ClashIff(c, g, e.value, contract, x);
    hide Reports, ExprDefect, ExpressionErrors, TargetErrors, CaptureErrors, CheckContractErrors, TargetDefect, Captured, TargetContract;
    hide Clash, Contracted;
    forall t
      ensures Contracted(g, e.target, t) <==> contract == Some(t)
    {
      ContractedIff(c, g, e.target, t);
    }
    ReportsBoth(a, b, x);
    ReportsBoth(a + b, v, x);
    ReportsBoth(a + b + v, w, x);
    ClashNeeds(g, e.value, contract, x);
    if contract.Some? {
      assert Contracted(g, e.target, contract.value);
    }
  }

  lemma ClashNeeds(g: Site, e: Expr, expected: Option<ResolvedType>, x: SemanticError)
    ensures Clash(g, e, expected, x) ==> expected.Some?
  {
  }

  lemma AssignmentParts(g: Site, e: Expr, x: SemanticError)
    requires e.Assignment?
    ensures ExprDefect(g, e, x) <==>
            || TargetDefect(At(g, e.target.Where()), e.target, x)
            || Captured(At(g, e.target.Where()), e.target, x)
            || ExprDefect(g, e.value, x)
            || exists t :: Contracted(g, e.target, t) && Clash(g, e.value, Some(t), x)
  {
    hide TargetDefect, Captured, Contracted, Clash;
  }

  // ----- calls -----

  /** Mistyped arguments among the first `n`. */
  ghost predicate ArgumentsClash(g: Site, e: Expr, symbol: Symbol, n: nat, x: SemanticError)
    requires e.Call? && n <= |e.arguments| && symbol.FunctionSymbol?
  {
    exists i | 0 <= i < n && i < |symbol.parameters| :: Clash(g, e.arguments[i], symbol.parameters[i], x)
  }

  lemma {:induction false} ArgumentsIff(c: Context, g: Site, e: Expr, symbol: Symbol, n: nat, x: SemanticError)
    requires Agrees(c, g) && e.Call? && n <= |e.arguments| && CalledSymbol(c, e) == Some(symbol)
    ensures symbol.FunctionSymbol?
    ensures Reports(ArgumentErrors(c, e, n), x) <==> ArgumentsClash(g, e, symbol, n, x)
  {
    hide Reports, Clash, CheckContractErrors, LookUpSymbol;
    if n == 0 {
      ReportsThis(c, UndefinedSymbol, [], false, x);
    } else {
      ArgumentsIff(c, g, e, symbol, n - 1, x);
      if n <= |symbol.parameters| {
        ClashIff(c, g, e.arguments[n - 1], symbol.parameters[n - 1], x);
        ReportsBoth(ArgumentErrors(c, e, n - 1), CheckContractErrors(c, e.arguments[n - 1], symbol.parameters[n - 1]), x);
      } else {
        ReportsThis(c, UndefinedSymbol, [], false, x);
        ReportsBoth(ArgumentErrors(c, e, n - 1), [], x);
      }
    }
  }

  lemma {:induction false} NoArguments(c: Context, e: Expr, n: nat)
    requires e.Call? && n <= |e.arguments| && CalledSymbol(c, e).None?
    ensures ArgumentErrors(c, e, n) == [] && ArityErrors(c, e) == []
  {
    hide LookUpSymbol;
    if n > 0 {
      NoArguments(c, e, n - 1);
    }
  }

  lemma SignatureIff(c: Context, g: Site, e: Expr, x: SemanticError)
    requires Agrees(c, g) && e.Call?
    ensures Reports(ArityErrors(c, e), x) || Reports(ArgumentErrors(c, e, |e.arguments|), x) <==> CallDefect(g, e.callee, e.arguments, x)
  {
    hide Reports, Clash, Visible, LookUpSymbol, LookUpDepth, ArgumentErrors;
    if CalledSymbol(c, e).None? {
      NoArguments(c, e, |e.arguments|);
      ReportsThis(c, UndefinedSymbol, [], false, x);
      if e.callee.Unspanned().Identifier? {
        SymbolSeen(c, g, e.callee.Unspanned().name);
        VisibleLayers(g, e.callee.Unspanned().name);
      }
    } else {
      var name, symbol := e.callee.Unspanned().name, CalledSymbol(c, e).value;
      SymbolSeen(c, g, name);
      VisibleLayers(g, name);
      ArgumentsIff(c, g, e, symbol, |e.arguments|, x);
      ReportsThis(c, WrongArgumentCount, [name], symbol.arity != |e.arguments|, x);
      LookUpFacts(c.scopes, name);
      assert Visible(g, name, LookUpDepth(c.scopes, name).value.0);
    }
  }

  lemma {:induction false} CallIff(c: Context, g: Site, e: Expr, x: SemanticError)
    requires Agrees(c, g) && e.Call?
    ensures Reports(ExpressionErrors(c, e), x) <==> ExprDefect(g, e, x)
    decreases e, 0, |Operands(e)| + 1
  {
    var n := |Operands(e)|;
    var callee, arity := OperandErrors(c, e, 0, 1), ArityErrors(c, e);
    var arguments, contracts := OperandErrors(c, e, 1, n), ArgumentErrors(c, e, |e.arguments|);
    assert ExpressionErrors(c, e) == callee + arity + arguments + contracts;
    OperandsIff(c, g, e, 0, 1, x);
    OperandsIff(c, g, e, 1, n, x);
    SignatureIff(c, g, e, x);
    CallParts(g, e, x);
    hide Reports, ExprDefect, ExpressionErrors, OperandErrors, ArityErrors, ArgumentErrors, OperandsDefect, CallDefect;
    ReportsBoth(callee, arity, x);
    ReportsBoth(callee + arity, arguments, x);
    ReportsBoth(callee + arity + arguments, contracts, x);
  }

  lemma CallOperands(g: Site, e: Expr, x: SemanticError)
    requires e.Call?
    ensures OperandsDefect(g, e, 0, 1, x) <==> ExprDefect(g, e.callee, x)
    ensures OperandsDefect(g, e, 1, |Operands(e)|, x) <==> exists i | 0 <= i < |e.arguments| :: ExprDefect(g, e.arguments[i], x)
  {
    var es := Operands(e);
    assert es[0] == e.callee && |es| == |e.arguments| + 1 && forall i | 0 <= i < |e.arguments| :: es[i + 1] == e.arguments[i];
    hide ExprDefect, Operands;
    if OperandsDefect(g, e, 1, |es|, x) {
      var i :| 1 <= i < |es| && ExprDefect(g, es[i], x);
      assert ExprDefect(g, e.arguments[i - 1], x);
    }
    if i :| 0 <= i < |e.arguments| && ExprDefect(g, e.arguments[i], x) {
      assert ExprDefect(g, es[i + 1], x);
    }
  }

  lemma CallParts(g: Site, e: Expr, x: SemanticError)
    requires e.Call?
    ensures ExprDefect(g, e, x) <==>
            OperandsDefect(g, e, 0, 1, x) || OperandsDefect(g, e, 1, |Operands(e)|, x) || CallDefect(g, e.callee, e.arguments, x)
  {
    hide CallDefect, OperandsDefect, Operands;
    CallOperands(g, e, x);
  }

  // ----- declarations -----

  lemma MatchesAgrees(c: Context, g: Site)
    requires Matches(c, g)
    ensures Agrees(c, g)
  {
  }

  lemma WithMatches(c: Context, g: Site, name: string, symbol: Symbol)
    requires Matches(c, g)
    ensures Matches(Declare(c, name, symbol), With(g, name, symbol))
  {
    if !Taken(g, name) {
      SameKinds(g.layers, With(g, name, symbol).layers);
    }
  }

  /** Names make no difference to loops, functions, workers and contracts. */
  lemma {:induction false} SameKinds(a: seq<Layer>, b: seq<Layer>)
    requires |a| == |b| && forall i | 0 <= i < |a| :: a[i].kind == b[i].kind
    ensures LoopsOf(a) == LoopsOf(b) && FunctionsIn(a) == FunctionsIn(b) && BoundariesOf(a) == BoundariesOf(b)
    ensures ReturnContract(a) == ReturnContract(b)
  {
    if a != [] {
      SameKinds(a[..|a| - 1], b[..|b| - 1]);
    }
  }

  lemma EnterMatches(c: Context, g: Site)
    requires Matches(c, g)
    ensures Matches(EnterScope(c), Defects.Enter(g, PlainLayer))
    ensures Matches(LoopContext(c, SerialLoop), Defects.Enter(g, LoopLayer))
    ensures Matches(LoopContext(c, ParallelLoop).(boundaries := c.boundaries + [Boundary(|c.scopes|, c.functionDepth)]),
                    Defects.Enter(g, WorkerLayer))
    ensures forall result ::
              Matches(EnterScope(c).(loops := [], functionDepth := c.functionDepth + 1, result := result),
                      Defects.Enter(g, FunctionLayer(result)))
  {
    EnteredLayers(g, PlainLayer);
    EnteredLayers(g, LoopLayer);
    EnteredLayers(g, WorkerLayer);
    forall result
      ensures Matches(EnterScope(c).(loops := [], functionDepth := c.functionDepth + 1, result := result),
                      Defects.Enter(g, FunctionLayer(result)))
    {
      EnteredLayers(g, FunctionLayer(result));
    }
  }

  lemma EnteredLayers(g: Site, kind: LayerKind)
    ensures var layers := Defects.Enter(g, kind).layers;
            && |layers| == |g.layers| + 1 && layers[..|g.layers|] == g.layers && layers[|g.layers|] == Layer(kind, map[])
  {
  }

  lemma TurnMatches(c: Context, g: Site, s: Stmt)
    requires Matches(c, g) && (s.For? || s.Parallel?)
    ensures Matches(IterationContext(c, s), TurnOf(g, s))
  {
    EnterMatches(c, g);
    if s.For? {
      WithMatches(LoopContext(c, SerialLoop), Defects.Enter(g, LoopLayer), s.variable, LoopSymbol);
    } else {
      var inside := LoopContext(c, ParallelLoop);
      var worker := inside.(boundaries := c.boundaries + [Boundary(|c.scopes|, c.functionDepth)]);
      WithMatches(worker, Defects.Enter(g, WorkerLayer), s.variable, LoopSymbol);
      assert Declare(worker, s.variable, LoopSymbol) == Declare(inside, s.variable, LoopSymbol).(boundaries := worker.boundaries);
    }
  }

  lemma {:induction false} ParametersMatch(c: Context, g: Site, parameters: seq<Parameter>, n: nat)
    requires Matches(c, g) && n <= |parameters|
    ensures Matches(DeclareParameters(c, parameters, n), Parameters(g, parameters, n))
  {
    hide Matches;
    if n > 0 {
      ParametersMatch(c, g, parameters, n - 1);
      SameTypes(c, g);
      WithMatches(DeclareParameters(c, parameters, n - 1), Parameters(g, parameters, n - 1), parameters[n - 1].name,
                  ParameterSymbol(ResolveAnnotation(g.types, parameters[n - 1].annotation)));
    }
  }

  lemma SameTypes(c: Context, g: Site)
    requires Matches(c, g)
    ensures c.types == g.types && c.declared == g.declared && c.span == g.at
    ensures |c.scopes| == |g.layers| && c.result == ReturnContract(g.layers)
  {
  }

  lemma FunctionMatches(c: Context, g: Site, s: Stmt)
    requires Matches(c, g) && s.Function?
    ensures Matches(FunctionContext(c, s), Defects.Enter(g, FunctionLayer(ResolveAnnotation(g.types, s.result))))
    ensures Matches(InsideFunction(c, s), InsideOf(g, s))
  {
    SameTypes(c, g);
    EnterMatches(c, g);
    hide Matches;
    ParametersMatch(FunctionContext(c, s), Defects.Enter(g, FunctionLayer(ResolveAnnotation(g.types, s.result))), s.parameters, |s.parameters|);
  }

  lemma {:induction false} HoistMatches(c: Context, g: Site, stmts: seq<Stmt>, n: nat)
    requires Matches(c, g) && n <= |stmts|
    ensures Matches(Hoist(c, stmts, n), Hoisted(g, stmts, n))
  {
    hide Matches;
    if n > 0 {
      HoistMatches(c, g, stmts, n - 1);
      SameTypes(c, g);
      var s := stmts[n - 1].Unspanned();
      if s.Function? {
        WithMatches(Hoist(c, stmts, n - 1), Hoisted(g, stmts, n - 1), s.name, FunctionOf(g, s));
      }
    }
  }

  lemma DeclaredMatches(c: Context, g: Site, names: set<string>)
    requires Matches(c, g)
    ensures Matches(WithTypes(c, names), g.(declared := g.declared + names))
  {
  }

  lemma {:induction false} BeforeMatches(c: Context, g: Site, stmts: seq<Stmt>, n: nat)
    requires Matches(c, g) && n <= |stmts|
    ensures Matches(ContextAt(c, stmts, n), Before(g, stmts, n))
  {
    hide Matches, TypeNames;
    if n > 0 {
      BeforeMatches(c, g, stmts, n - 1);
      SameTypes(c, g);
      BeforeTypes(g, stmts, n - 1);
      var before, front, s := ContextAt(c, stmts, n - 1), Before(g, stmts, n - 1), stmts[n - 1].Unspanned();
      SameTypes(before, front);
      DeclaredMatches(before, front, TypeNames(stmts[n - 1]));
      if s.Let? {
        WithMatches(WithTypes(before, TypeNames(stmts[n - 1])), front.(declared := front.declared + TypeNames(stmts[n - 1])), s.name,
                    VariableSymbol(ResolveAnnotation(g.types, s.annotation)));
      }
    }
  }

  lemma {:induction false} BeforeTypes(g: Site, stmts: seq<Stmt>, n: nat)
    requires n <= |stmts|
    ensures Before(g, stmts, n).types == g.types && Before(g, stmts, n).at == g.at
  {
    hide TypeNames;
    if n > 0 {
      BeforeTypes(g, stmts, n - 1);
    }
  }

  // ----- annotations and repeated names -----

  lemma AnnotationIff(c: Context, g: Site, annotation: Option<TypeAnnotation>, x: SemanticError)
    requires c.types == g.types && c.span == g.at
    ensures Reports(OptionalAnnotationErrors(c, annotation), x) <==> UnknownAnnotation(g, annotation, x)
  {
    hide Reports, Resolve;
    if annotation.Some? {
      ReportsThis(Here(c, annotation.value.span), UnknownType, [annotation.value.name],
                  Resolve(c.types, annotation.value.name).None?, x);
    } else {
      ReportsThis(c, UnknownType, [], false, x);
    }
  }

  lemma TakenIff(c: Context, g: Site, name: string, x: SemanticError)
    requires Matches(c, g)
    ensures Reports(DeclareErrors(c, name), x) <==> x == SemanticError(DuplicateDeclaration, [name], g.at) && g.layers != [] && Taken(g, name)
  {
    ReportsThis(c, DuplicateDeclaration, [name], c.scopes != [] && name in c.scopes[|c.scopes| - 1], x);
    hide Reports;
  }

  lemma {:induction false} AnnotationsIff(c: Context, g: Site, parameters: seq<Parameter>, n: nat, x: SemanticError)
    requires c.types == g.types && c.span == g.at && n <= |parameters|
    ensures Reports(ParameterAnnotationErrors(c, parameters, n), x) <==>
            exists j | 0 <= j < n :: UnknownAnnotation(g, parameters[j].annotation, x)
  {
    hide Reports, UnknownAnnotation, OptionalAnnotationErrors;
    if n == 0 {
      ReportsThis(c, UnknownType, [], false, x);
    } else {
      AnnotationsIff(c, g, parameters, n - 1, x);
      AnnotationIff(c, g, parameters[n - 1].annotation, x);
      ReportsBoth(ParameterAnnotationErrors(c, parameters, n - 1), OptionalAnnotationErrors(c, parameters[n - 1].annotation), x);
    }
  }

  lemma FunctionHoistIff(c: Context, g: Site, s: Stmt, x: SemanticError)
    requires Matches(c, g) && s.Function?
    ensures Reports(FunctionHoistErrors(c, s), x) <==> SignatureDefect(g, s, x)
  {
    SameTypes(c, g);
    hide Reports, UnknownAnnotation, OptionalAnnotationErrors, DeclareErrors, ParameterAnnotationErrors, Matches;
    var a, b := ParameterAnnotationErrors(c, s.parameters, |s.parameters|), OptionalAnnotationErrors(c, s.result);
    AnnotationsIff(c, g, s.parameters, |s.parameters|, x);
    AnnotationIff(c, g, s.result, x);
    TakenIff(c, g, s.name, x);
    ReportsBoth(a, b, x);
    ReportsBoth(a + b, DeclareErrors(c, s.name), x);
  }

  ghost predicate HoistsDefect(g: Site, stmts: seq<Stmt>, n: nat, x: SemanticError)
    requires n <= |stmts|
  {
    exists i | 0 <= i < n :: HoistDefect(g, stmts, i, x)
  }

  lemma {:induction false} HoistIff(c: Context, g: Site, stmts: seq<Stmt>, n: nat, x: SemanticError)
    requires Matches(c, g) && n <= |stmts|
    ensures Reports(HoistErrors(c, stmts, n), x) <==> HoistsDefect(g, stmts, n, x)
  {
    hide Reports, HoistDefect, FunctionHoistErrors, Matches;
    if n == 0 {
      ReportsThis(c, UnknownType, [], false, x);
      return;
    }
    HoistIff(c, g, stmts, n - 1, x);
    var s := stmts[n - 1].Unspanned();
    var here := Here(Hoist(c, stmts, n - 1), stmts[n - 1].Where());
    HoistOneIff(c, g, stmts, n - 1, x);
    ReportsBoth(HoistErrors(c, stmts, n - 1), if s.Function? then FunctionHoistErrors(here, s) else [], x);
  }

  lemma HereMatches(c: Context, g: Site, span: Option<Span>)
    requires Matches(c, g)
    ensures Matches(Here(c, span), At(g, span))
  {
  }

  lemma HoistOneIff(c: Context, g: Site, stmts: seq<Stmt>, i: nat, x: SemanticError)
    requires Matches(c, g) && i < |stmts|
    ensures var s := stmts[i].Unspanned();
            var here := Here(Hoist(c, stmts, i), stmts[i].Where());
            Reports(if s.Function? then FunctionHoistErrors(here, s) else [], x) <==> HoistDefect(g, stmts, i, x)
  {
    hide Reports, FunctionHoistErrors, Matches, SignatureDefect;
    var s := stmts[i].Unspanned();
    ReportsThis(c, UnknownType, [], false, x);
    if s.Function? {
      var at := stmts[i].Where();
      HoistMatches(c, g, stmts, i);
      HereMatches(Hoist(c, stmts, i), Hoisted(g, stmts, i), at);
      FunctionHoistIff(Here(Hoist(c, stmts, i), at), At(Hoisted(g, stmts, i), at), s, x);
    }
  }

  // ----- parameters -----

  lemma {:induction false} ParameterTaken(g: Site, parameters: seq<Parameter>, n: nat, name: string)
    requires n <= |parameters| && g.layers != [] && g.layers[|g.layers| - 1].names == map[]
    ensures var h := Parameters(g, parameters, n);
            && h.layers != [] && h.at == g.at && (Taken(h, name) <==> exists j | 0 <= j < n :: parameters[j].name == name)
  {
    if n > 0 {
      ParameterTaken(g, parameters, n - 1, name);
      ParameterTaken(g, parameters, n - 1, parameters[n - 1].name);
    }
  }

  lemma {:induction false} ParameterErrorsIff(c: Context, g: Site, parameters: seq<Parameter>, n: nat, x: SemanticError)
    requires Matches(c, g) && n <= |parameters| && g.layers != [] && g.layers[|g.layers| - 1].names == map[]
    ensures Reports(ParameterErrors(c, parameters, n), x) <==>
            exists i | 0 <= i < n ::
              x == SemanticError(DuplicateDeclaration, [parameters[i].name], g.at) && exists j | 0 <= j < i :: parameters[j].name == parameters[i].name
  {
    hide Reports, DeclareErrors, Matches, Taken;
    if n == 0 {
      ReportsThis(c, UnknownType, [], false, x);
    } else {
      var name := parameters[n - 1].name;
      ParameterErrorsIff(c, g, parameters, n - 1, x);
      ParametersMatch(c, g, parameters, n - 1);
      TakenIff(DeclareParameters(c, parameters, n - 1), Parameters(g, parameters, n - 1), name, x);
      ParameterTaken(g, parameters, n - 1, name);
      ReportsBoth(ParameterErrors(c, parameters, n - 1), DeclareErrors(DeclareParameters(c, parameters, n - 1), name), x);
    }
  }

  // ----- type declarations -----

  ghost predicate TypeFieldsDefect(g: Site, fields: seq<TypeField>, n: nat, x: SemanticError)
    requires n <= |fields|
  {
    exists i | 0 <= i < n ::
      || (x == SemanticError(DuplicateDeclaration, [fields[i].name], g.at) && exists j | 0 <= j < i :: fields[j].name == fields[i].name)
      || UnknownAnnotation(g, Some(fields[i].annotation), x)
  }

  lemma {:induction false} TypeFieldsIff(c: Context, g: Site, fields: seq<TypeField>, n: nat, x: SemanticError)
    requires c.types == g.types && c.span == g.at && n <= |fields|
    ensures Reports(TypeFieldErrors(c, fields, n), x) <==> TypeFieldsDefect(g, fields, n, x)
  {
    hide Reports, UnknownAnnotation, AnnotationErrors;
    if n == 0 {
      ReportsThis(c, UnknownType, [], false, x);
    } else {
      TypeFieldsIff(c, g, fields, n - 1, x);
      var last := fields[n - 1];
      var repeated := exists i | 0 <= i < n - 1 :: fields[i].name == last.name;
      var front, twice := TypeFieldErrors(c, fields, n - 1), When(repeated, Report(c, DuplicateDeclaration, [last.name]));
      ReportsThis(c, DuplicateDeclaration, [last.name], repeated, x);
      AnnotationIff(c, g, Some(last.annotation), x);
      OneAnnotation(c, last.annotation);
      ReportsBoth(front, twice, x);
      ReportsBoth(front + twice, AnnotationErrors(c, last.annotation), x);
    }
  }

  lemma OneAnnotation(c: Context, annotation: TypeAnnotation)
    ensures OptionalAnnotationErrors(c, Some(annotation)) == AnnotationErrors(c, annotation)
  {
  }

  lemma ReservedIff(name: string)
    ensures IsReserved(name) <==> Reserved(name)
  {
  }

  lemma PlaceIff(c: Context, g: Site, name: string, x: SemanticError)
    requires Matches(c, g)
    ensures Reports(DeclarationErrors(c, name), x) <==>
            || (x == SemanticError(InvalidTypeDeclaration, [], g.at) && (|g.layers| != 2 || InFunction(g)))
            || (x == SemanticError(InvalidTypeDeclaration, [name], g.at) && Reserved(name))
            || (x == SemanticError(DuplicateDeclaration, [name], g.at) && name in g.declared)
  {
    SameTypes(c, g);
    FunctionsCount(g);
    MatchedCount(c, g);
    ReservedIff(name);
    hide Reports, Reserved, IsReserved, InFunction, Matches;
    var misplaced := |c.scopes| != 2 || c.functionDepth != 0;
    var a, b := When(misplaced, Report(c, InvalidTypeDeclaration, [])), When(IsReserved(name), Report(c, InvalidTypeDeclaration, [name]));
    var d := When(name in c.declared, Report(c, DuplicateDeclaration, [name]));
    ReportsThis(c, InvalidTypeDeclaration, [], misplaced, x);
    ReportsThis(c, InvalidTypeDeclaration, [name], IsReserved(name), x);
    ReportsThis(c, DuplicateDeclaration, [name], name in c.declared, x);
    ReportsBoth(a, b, x);
    ReportsBoth(a + b, d, x);
  }

  lemma MatchedCount(c: Context, g: Site)
    requires Matches(c, g)
    ensures c.functionDepth == FunctionsIn(g.layers) && c.loops == LoopsOf(g.layers) && c.boundaries == BoundariesOf(g.layers)
  {
  }

  lemma TypeIff(c: Context, g: Site, name: string, fields: seq<TypeField>, x: SemanticError)
    requires Matches(c, g)
    ensures Reports(TypeDeclErrors(c, name, fields), x) <==> TypeDefect(g, name, fields, x)
  {
    SameTypes(c, g);
    PlaceIff(c, g, name, x);
    TypeFieldsIff(c, g, fields, |fields|, x);
    ReportsThis(c, InvalidTypeDeclaration, [name, name], CyclicName(c.types, name), x);
    hide Reports, Reserved, InFunction, Matches, Reaches, UnknownAnnotation, DeclarationErrors, TypeFieldErrors;
    var a, b := DeclarationErrors(c, name), TypeFieldErrors(c, fields, |fields|);
    ReportsBoth(a, b, x);
    ReportsBoth(a + b, When(CyclicName(c.types, name), Report(c, InvalidTypeDeclaration, [name, name])), x);
  }

  // ----- control flow -----

  lemma BreakIff(c: Context, g: Site, x: SemanticError)
    requires Matches(c, g)
    ensures Reports(BreakErrors(c), x) <==>
            || (x == SemanticError(BreakOutsideLoop, [], g.at) && !InLoop(g))
            || (x == SemanticError(BreakAcrossParallel, [], g.at) && InParallelTurn(g))
    ensures Reports(When(c.loops == [], Report(c, ContinueOutsideLoop, [])), x) <==> x == SemanticError(ContinueOutsideLoop, [], g.at) && !InLoop(g)
  {
    MatchedCount(c, g);
    LoopsInside(g);
    TurnsInside(g);
    hide Reports, InLoop, InParallelTurn, Matches;
    ReportsThis(c, BreakOutsideLoop, [], true, x);
    ReportsThis(c, BreakAcrossParallel, [], true, x);
    ReportsThis(c, ContinueOutsideLoop, [], c.loops == [], x);
  }

  lemma ReturnIff(c: Context, g: Site, returned: Option<Expr>, x: SemanticError)
    requires Matches(c, g)
    ensures Reports(ReturnErrors(c, returned), x) <==> ReturnDefect(g, returned, x)
  {
    MatchedCount(c, g);
    SameTypes(c, g);
    MatchesAgrees(c, g);
    BoundaryInside(g);
    FunctionsCount(g);
    ReportsThis(c, ReturnAcrossParallel, [], true, x);
    ReportsThis(c, ReturnOutsideFunction, [], c.functionDepth == 0, x);
    if returned.Some? {
      ExprIff(c, g, returned.value, x);
    }
    var e := if returned.Some? then returned.value else NullLit;
    ClashIff(c, g, e, c.result, x);
    hide Reports, InWorker, InFunction, WorkerInside, Matches, ExprDefect, ExpressionErrors, Clash, CheckContractErrors, BoundariesOf;
    var a := if ReturnsFromWorker(c) then Report(c, ReturnAcrossParallel, [])
             else When(c.functionDepth == 0, Report(c, ReturnOutsideFunction, []));
    var b := if returned.Some? then ExpressionErrors(c, returned.value) else [];
    ReportsBoth(a, b, x);
    ReportsBoth(a + b, CheckContractErrors(c, e, c.result), x);
  }

  lemma LetIff(c: Context, g: Site, s: Stmt, x: SemanticError)
    requires Matches(c, g) && s.Let?
    ensures Reports(LetErrors(c, s), x) <==>
            || ExprDefect(g, s.value, x)
            || UnknownAnnotation(g, s.annotation, x)
            || Clash(g, s.value, ResolveAnnotation(g.types, s.annotation), x)
            || (x == SemanticError(DuplicateDeclaration, [s.name], g.at) && g.layers != [] && Taken(g, s.name))
  {
    SameTypes(c, g);
    MatchesAgrees(c, g);
    var contract := ResolveAnnotation(c.types, s.annotation);
    ExprIff(c, g, s.value, x);
    AnnotationIff(c, g, s.annotation, x);
    ClashIff(c, g, s.value, contract, x);
    TakenIff(c, g, s.name, x);
    hide Reports, Matches, ExprDefect, ExpressionErrors, Clash, CheckContractErrors, UnknownAnnotation, OptionalAnnotationErrors;
    hide DeclareErrors, Taken, ResolveAnnotation;
    var a, b, d := ExpressionErrors(c, s.value), OptionalAnnotationErrors(c, s.annotation), CheckContractErrors(c, s.value, contract);
    ReportsBoth(a, b, x);
    ReportsBoth(a + b, d, x);
    ReportsBoth(a + b + d, DeclareErrors(c, s.name), x);
  }

  // ----- statements -----

  lemma {:induction false} StmtIff(c: Context, g: Site, s: Stmt, x: SemanticError)
    requires Matches(c, g)
    ensures Reports(StatementErrors(c, s), x) <==> StmtDefect(g, s, x)
    decreases s, 3, 0
  {
    hide Reports, Matches, ExprDefect, ExpressionErrors;
    match s
    case LocatedStmt(span, inner) =>
      HereMatches(c, g, Some(span));
      StmtIff(c.(span := Some(span)), At(g, Some(span)), inner, x);
    case TypeDecl(name, fields) => TypeIff(c, g, name, fields, x);
    case Break => BreakIff(c, g, x);
    case Continue => BreakIff(c, g, x);
    case Let(_, _, _) => LetIff(c, g, s, x);
    case ExprStmt(e) =>
      MatchesAgrees(c, g);
      ExprIff(c, g, e, x);
    case Return(returned) => ReturnIff(c, g, returned, x);
    case Block(_) =>
      EnterMatches(c, g);
      BodyIff(EnterScope(c), Defects.Enter(g, PlainLayer), s, x);
    case Function(_, _, _, _) => FunctionIff(c, g, s, x);
    case If(_, _, _) => IfIff(c, g, s, x);
    case Match(_, _) => MatchIff(c, g, s, x);
    case _ => LoopIff(c, g, s, x);
  }

  lemma {:induction false} FunctionIff(c: Context, g: Site, s: Stmt, x: SemanticError)
    requires Matches(c, g) && s.Function?
    ensures Reports(StatementErrors(c, s), x) <==> StmtDefect(g, s, x)
    decreases s, 2, 0
  {
    FunctionMatches(c, g, s);
    ParameterErrorsIff(FunctionContext(c, s), Defects.Enter(g, FunctionLayer(ResolveAnnotation(g.types, s.result))), s.parameters, |s.parameters|, x);
    BodyIff(InsideFunction(c, s), InsideOf(g, s), s.body, x);
    hide Reports, Matches, BodyErrors, BodyDefect, InsideOf, InsideFunction, FunctionContext;
    ReportsBoth(ParameterErrors(FunctionContext(c, s), s.parameters, |s.parameters|), BodyErrors(InsideFunction(c, s), s.body), x);
  }

  lemma {:induction false} IfIff(c: Context, g: Site, s: Stmt, x: SemanticError)
    requires Matches(c, g) && s.If?
    ensures Reports(StatementErrors(c, s), x) <==> StmtDefect(g, s, x)
    decreases s, 2, 0
  {
    MatchesAgrees(c, g);
    ExprIff(c, g, s.condition, x);
    EnterMatches(c, g);
    BodyIff(EnterScope(c), Defects.Enter(g, PlainLayer), s.thenBranch, x);
    var names := TypeNames(s.thenBranch);
    var d, h := WithTypes(c, names), g.(declared := g.declared + names);
    DeclaredMatches(c, g, names);
    EnterMatches(d, h);
    var e := if s.elseBranch.Some? then BodyErrors(EnterScope(d), s.elseBranch.value) else [];
    if s.elseBranch.Some? {
      BodyIff(EnterScope(d), Defects.Enter(h, PlainLayer), s.elseBranch.value, x);
    } else {
      ReportsThis(c, UnknownType, [], false, x);
    }
    hide Reports, Matches, BodyErrors, BodyDefect, ExprDefect, ExpressionErrors, TypeNames, EnterScope, WithTypes;
    var a, b := ExpressionErrors(c, s.condition), BodyErrors(EnterScope(c), s.thenBranch);
    ReportsBoth(a, b, x);
    ReportsBoth(a + b, e, x);
  }

  /** A loop is checked as its head and then its body inside a turn. */
  lemma LoopParts(c: Context, g: Site, s: Stmt, x: SemanticError)
    requires s.While? || s.For? || s.Parallel?
    ensures var head := if s.While? then s.condition else s.iterable;
            var d := if s.While? then LoopContext(c, SerialLoop) else IterationContext(c, s);
            var h := if s.While? then Defects.Enter(g, LoopLayer) else TurnOf(g, s);
            && StatementErrors(c, s) == ExpressionErrors(c, head) + BodyErrors(d, s.body)
            && (StmtDefect(g, s, x) <==> ExprDefect(g, head, x) || BodyDefect(h, s.body, x))
  {
    hide Reports, Matches, BodyErrors, BodyDefect, ExprDefect, ExpressionErrors, IterationContext, LoopContext, TurnOf;
  }

  lemma {:induction false} LoopIff(c: Context, g: Site, s: Stmt, x: SemanticError)
    requires Matches(c, g) && (s.While? || s.For? || s.Parallel?)
    ensures Reports(StatementErrors(c, s), x) <==> StmtDefect(g, s, x)
    decreases s, 2, 0
  {
    MatchesAgrees(c, g);
    LoopParts(c, g, s, x);
    EnterMatches(c, g);
    if !s.While? {
      TurnMatches(c, g, s);
    }
    hide *;
    var head := if s.While? then s.condition else s.iterable;
    var d := if s.While? then LoopContext(c, SerialLoop) else IterationContext(c, s);
    var h := if s.While? then Defects.Enter(g, LoopLayer) else TurnOf(g, s);
    ExprIff(c, g, head, x);
    BodyIff(d, h, s.body, x);
    ReportsBoth(ExpressionErrors(c, head), BodyErrors(d, s.body), x);
  }

  ghost predicate ArmsDefect(g: Site, s: Stmt, n: nat, x: SemanticError)
    requires s.Match? && n <= |s.arms|
  {
    exists i | 0 <= i < n :: BodyDefect(Defects.Enter(g.(declared := g.declared + ArmTypeNames(s, i)), PlainLayer), s.arms[i].body, x)
  }

  lemma {:induction false} ArmsIff(c: Context, g: Site, s: Stmt, n: nat, x: SemanticError)
    requires Matches(c, g) && s.Match? && n <= |s.arms|
    ensures Reports(ArmErrors(c, s, n), x) <==> ArmsDefect(g, s, n, x)
    decreases s, 1, n
  {
    hide Reports, Matches, BodyErrors, BodyDefect, ArmTypeNames;
    if n == 0 {
      ReportsThis(c, UnknownType, [], false, x);
    } else {
      ArmsIff(c, g, s, n - 1, x);
      var names := ArmTypeNames(s, n - 1);
      DeclaredMatches(c, g, names);
      EnterMatches(WithTypes(c, names), g.(declared := g.declared + names));
      BodyIff(EnterScope(WithTypes(c, names)), Defects.Enter(g.(declared := g.declared + names), PlainLayer), s.arms[n - 1].body, x);
      ReportsBoth(ArmErrors(c, s, n - 1), BodyErrors(EnterScope(WithTypes(c, names)), s.arms[n - 1].body), x);
    }
  }

  lemma {:induction false} MatchIff(c: Context, g: Site, s: Stmt, x: SemanticError)
    requires Matches(c, g) && s.Match?
    ensures Reports(StatementErrors(c, s), x) <==> StmtDefect(g, s, x)
    decreases s, 2, 0
  {
    MatchesAgrees(c, g);
    ExprIff(c, g, s.subject, x);
    ArmsIff(c, g, s, |s.arms|, x);
    hide Reports, Matches, BodyErrors, BodyDefect, ExprDefect, ExpressionErrors, ArmErrors, ArmTypeNames;
    ReportsBoth(ExpressionErrors(c, s.subject), ArmErrors(c, s, |s.arms|), x);
  }

  ghost predicate SequenceDefect(g: Site, stmts: seq<Stmt>, n: nat, x: SemanticError)
    requires n <= |stmts|
  {
    exists i | 0 <= i < n :: StmtDefect(Before(g, stmts, i), stmts[i], x)
  }

  lemma {:induction false} SequenceIff(c: Context, g: Site, body: Stmt, n: nat, x: SemanticError)
    requires Matches(c, g) && n <= |Contents(body)| && !body.LocatedStmt?
    ensures Reports(SequenceErrors(c, body, n), x) <==> SequenceDefect(g, Contents(body), n, x)
    decreases body, if body.Block? then 0 else 4, n
  {
    hide Reports, Matches, StatementErrors, StmtDefect, Before, ContextAt;
    if n == 0 {
      ReportsThis(c, UnknownType, [], false, x);
    } else {
      var stmts := Contents(body);
      SequenceIff(c, g, body, n - 1, x);
      BeforeMatches(c, g, stmts, n - 1);
      StmtIff(ContextAt(c, stmts, n - 1), Before(g, stmts, n - 1), stmts[n - 1], x);
      ReportsBoth(SequenceErrors(c, body, n - 1), StatementErrors(ContextAt(c, stmts, n - 1), stmts[n - 1]), x);
    }
  }

  lemma {:induction false} BodyIff(c: Context, g: Site, body: Stmt, x: SemanticError)
    requires Matches(c, g)
    ensures Reports(BodyErrors(c, body), x) <==> BodyDefect(g, body, x)
    decreases body, if body.Block? then 0 else 4, |Contents(body)| + 1
  {
    hide Reports, Matches, HoistErrors, SequenceErrors, HoistDefect, StmtDefect, Hoist, Hoisted, Before;
    if body.LocatedStmt? {
      HereMatches(c, g, Some(body.span));
      BodyIff(c.(span := Some(body.span)), At(g, Some(body.span)), body.inner, x);
    } else {
      var stmts := Contents(body);
      HoistIff(c, g, stmts, |stmts|, x);
      HoistMatches(c, g, stmts, |stmts|);
      SequenceIff(Hoist(c, stmts, |stmts|), Hoisted(g, stmts, |stmts|), body, |stmts|, x);
      ReportsBoth(HoistErrors(c, stmts, |stmts|), SequenceErrors(Hoist(c, stmts, |stmts|), body, |stmts|), x);
    }
  }

  // ----- programs -----

  /** Every error is reported if and only if that defect is there, about those names and at that location. */
  lemma ReportedIffDefective(statements: seq<Stmt>, x: SemanticError)
    ensures x in Analyze(statements) <==> ProgramDefect(statements, x)
  {
    hide BodyErrors, BodyDefect;
    var types := Definitions(statements);
    TopMatches(types);
    BodyIff(TopContext(types), TopSite(types), Block(statements), x);
  }

  lemma TopMatches(types: seq<TypeDef>)
    ensures Matches(TopContext(types), TopSite(types))
  {
    var layers := TopSite(types).layers;
    PlainTop([]);
    assert [layers[0]] + [layers[1]] == layers;
    assert [] + [layers[0]] == [layers[0]];
    PlainLast([], layers[0]);
    PlainLast([layers[0]], layers[1]);
  }

  lemma PlainTop(layers: seq<Layer>)
    ensures layers == [] ==> LoopsOf(layers) == [] && FunctionsIn(layers) == 0 && BoundariesOf(layers) == [] && ReturnContract(layers) == None
  {
  }

  lemma PlainLast(layers: seq<Layer>, last: Layer)
    requires last.kind.PlainLayer?
    ensures var more := layers + [last];
            && LoopsOf(more) == LoopsOf(layers) && FunctionsIn(more) == FunctionsIn(layers)
            && BoundariesOf(more) == BoundariesOf(layers) && ReturnContract(more) == ReturnContract(layers)
  {
    assert (layers + [last])[..|layers|] == layers;
  }

  /** A program is accepted if and only if it has no defect. */
  lemma AcceptedIffSound(statements: seq<Stmt>)
    ensures Analyze(statements) == [] <==> forall x :: !ProgramDefect(statements, x)
  {
    hide Analyze, ProgramDefect;
    forall x
      ensures x in Analyze(statements) <==> ProgramDefect(statements, x)
    {
      ReportedIffDefective(statements, x);
    }
    if Analyze(statements) != [] {
      assert Analyze(statements)[0] in Analyze(statements);
    }
  }

  // ----- names of types -----

  /** A type of this name is declared somewhere inside. */
  predicate DeclaresInside(s: Stmt, name: string)
    decreases s
  {
    match s
    case TypeDecl(declared, _) => declared == name
    case LocatedStmt(_, inner) => DeclaresInside(inner, name)
    case Block(statements) => exists i | 0 <= i < |statements| :: DeclaresInside(statements[i], name)
    case Parallel(_, _, body) => DeclaresInside(body, name)
    case Match(_, arms) => exists i | 0 <= i < |arms| :: DeclaresInside(arms[i].body, name)
    case If(_, thenBranch, elseBranch) =>
      DeclaresInside(thenBranch, name) || (elseBranch.Some? && DeclaresInside(elseBranch.value, name))
    case While(_, body) => DeclaresInside(body, name)
    case For(_, _, body) => DeclaresInside(body, name)
    case Function(_, _, _, body) => DeclaresInside(body, name)
    case _ => false
  }

  /** The names a statement leaves declared are those of the types declared anywhere inside it. */
  lemma {:induction false} TypeNamesInside(s: Stmt, name: string)
    ensures name in TypeNames(s) <==> DeclaresInside(s, name)
    decreases s, 1, 0
  {
    match s
    case LocatedStmt(_, inner) => TypeNamesInside(inner, name);
    case Block(statements) => BlockNamesInside(s, |statements|, name);
    case Parallel(_, _, body) => TypeNamesInside(body, name);
    case Match(_, arms) => ArmNamesInside(s, |arms|, name);
    case If(_, thenBranch, elseBranch) =>
      TypeNamesInside(thenBranch, name);
      if elseBranch.Some? {
        TypeNamesInside(elseBranch.value, name);
      }
    case While(_, body) => TypeNamesInside(body, name);
    case For(_, _, body) => TypeNamesInside(body, name);
    case Function(_, _, _, body) => TypeNamesInside(body, name);
    case _ =>
  }

  lemma {:induction false} BlockNamesInside(s: Stmt, n: nat, name: string)
    requires s.Block? && n <= |s.statements|
    ensures name in BlockTypeNames(s, n) <==> exists i | 0 <= i < n :: DeclaresInside(s.statements[i], name)
    decreases s, 0, n
  {
    hide TypeNames, DeclaresInside;
    if n > 0 {
      BlockNamesInside(s, n - 1, name);
      TypeNamesInside(s.statements[n - 1], name);
    }
  }

  lemma {:induction false} ArmNamesInside(s: Stmt, n: nat, name: string)
    requires s.Match? && n <= |s.arms|
    ensures name in ArmTypeNames(s, n) <==> exists i | 0 <= i < n :: DeclaresInside(s.arms[i].body, name)
    decreases s, 0, n
  {
    hide TypeNames, DeclaresInside;
    if n > 0 {
      ArmNamesInside(s, n - 1, name);
      TypeNamesInside(s.arms[n - 1].body, name);
    }
  }
}
