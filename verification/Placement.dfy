/**
 * The analyzer reads locations only to place its errors (src/semantic/mod.rs).
 * Whatever it decides, it decides on nodes below their wrappers, so analyzing a
 * program without its locations gives the same errors, of the same kind about
 * the same names and in the same order, up to where they point. Scopes, symbol
 * tables, loop stacks and worker boundaries are the same throughout. There is
 * one lemma for each function of the analysis, all by induction along it.
 */
module Placement {
  import opened Wrappers
  import opened Ast
  import opened Types
  import opened Analysis
  import opened Erasure

  predicate SameErrors(a: Errors, b: Errors) {
    |a| == |b| && forall i | 0 <= i < |a| :: a[i].kind == b[i].kind && a[i].about == b[i].about
  }

  predicate SameContext(c: Context, d: Context) {
    d == c.(span := d.span)
  }

  lemma Join(a: Errors, b: Errors, c: Errors, d: Errors)
    requires SameErrors(a, b) && SameErrors(c, d)
    ensures SameErrors(a + c, b + d)
  {
  }

  // ----- static types -----

  lemma {:induction false} KnownTypeErased(types: seq<TypeDef>, scopes: Scopes, e: Expr)
    ensures KnownType(types, scopes, Erase(e)) == KnownType(types, scopes, e)
    decreases e
  {
    if e.Located? {
      KnownTypeErased(types, scopes, e.inner);
    } else if e.Property? {
      KnownTypeErased(types, scopes, e.owner);
    } else if e.Index? {
      KnownTypeErased(types, scopes, e.owner);
      LiteralErased(e.index);
    } else if e.Assignment? {
      KnownTypeErased(types, scopes, e.value);
    } else if e.Unary? {
      KnownTypeErased(types, scopes, e.operand);
    } else if e.Binary? {
      KnownTypeErased(types, scopes, e.left);
      KnownTypeErased(types, scopes, e.right);
    } else if e.Call? {
      LiteralErased(e.callee);
    }
  }

  /** Names and string literals show through their wrappers. */
  lemma LiteralErased(e: Expr)
    ensures var a, b := e.Unspanned(), Erase(e).Unspanned();
            && (a.StringLit? || b.StringLit? ==> b == a)
            && (a.Identifier? || b.Identifier? ==> b == a)
            && (a.Property? == b.Property?) && (a.Index? == b.Index?)
  {
    EraseUnspanned(e);
  }

  lemma {:induction false} RootErased(target: Expr)
    ensures RootOf(Erase(target)) == RootOf(target)
    decreases target
  {
    if target.Located? {
      RootErased(target.inner);
    } else if target.Property? || target.Index? {
      RootErased(target.owner);
    }
  }

  lemma ContractSame(c: Context, d: Context, e: Expr, expected: Option<ResolvedType>)
    requires SameContext(c, d)
    ensures SameErrors(CheckContractErrors(c, e, expected), CheckContractErrors(d, Erase(e), expected))
  {
    KnownTypeErased(c.types, c.scopes, e);
  }

  lemma MemberSame(c: Context, d: Context, owner: Expr, name: string)
    requires SameContext(c, d)
    ensures SameErrors(CheckMemberErrors(c, owner, name), CheckMemberErrors(d, Erase(owner), name))
  {
    KnownTypeErased(c.types, c.scopes, owner);
  }

  // ----- expressions -----

  lemma {:induction false} ExpressionSame(c: Context, d: Context, e: Expr)
    requires SameContext(c, d)
    ensures SameErrors(ExpressionErrors(c, e), ExpressionErrors(d, Erase(e)))
    decreases e, 1, 0
  {
    if e.Located? {
      ExpressionSame(c.(span := Some(e.span)), d, e.inner);
      return;
    }
    OperandsErased(e);
    if e.Identifier? {
    } else if e.Construct? {
      ConstructSame(c, d, e);
    } else if e.Assignment? {
      AssignmentSame(c, d, e);
    } else if e.Call? {
      CallSame(c, d, e);
    } else if e.Binary? {
      ExpressionSame(c, d, e.left);
      ExpressionSame(c, d, e.right);
      Join(ExpressionErrors(c, e.left), ExpressionErrors(d, Erase(e.left)), ExpressionErrors(c, e.right), ExpressionErrors(d, Erase(e.right)));
    } else if e.Property? {
      ExpressionSame(c, d, e.owner);
      MemberSame(c, d, e.owner, e.name);
      Join(ExpressionErrors(c, e.owner), ExpressionErrors(d, Erase(e.owner)),
           CheckMemberErrors(c, e.owner, e.name), CheckMemberErrors(d, Erase(e.owner), e.name));
    } else if e.Index? {
      IndexSame(c, d, e);
    } else {
      OperandsSame(c, d, e, 0, |Operands(e)|);
    }
  }

  lemma {:induction false} OperandsSame(c: Context, d: Context, e: Expr, lo: nat, hi: nat)
    requires SameContext(c, d) && !e.Located? && hi <= |Operands(e)| == |Operands(Erase(e))|
    ensures SameErrors(OperandErrors(c, e, lo, hi), OperandErrors(d, Erase(e), lo, hi))
    decreases e, 0, hi
  {
    hide ExpressionErrors;
    if hi > lo {
      OperandsErased(e);
      OperandsSame(c, d, e, lo, hi - 1);
      ExpressionSame(c, d, Operands(e)[hi - 1]);
      Join(OperandErrors(c, e, lo, hi - 1), OperandErrors(d, Erase(e), lo, hi - 1),
           ExpressionErrors(c, Operands(e)[hi - 1]), ExpressionErrors(d, Operands(Erase(e))[hi - 1]));
    }
  }

  function LiteralMemberErrors(c: Context, owner: Expr, index: Expr): Errors {
    if index.Unspanned().StringLit? then CheckMemberErrors(c, owner, index.Unspanned().text) else []
  }

  lemma IndexErrorParts(c: Context, e: Expr)
    requires e.Index?
    ensures ExpressionErrors(c, e)
         == ExpressionErrors(c, e.owner) + ExpressionErrors(c, e.index) + LiteralMemberErrors(c, e.owner, e.index)
  {
    hide CheckMemberErrors;
  }

  lemma LiteralMemberSame(c: Context, d: Context, owner: Expr, index: Expr)
    requires SameContext(c, d)
    ensures SameErrors(LiteralMemberErrors(c, owner, index), LiteralMemberErrors(d, Erase(owner), Erase(index)))
  {
    hide CheckMemberErrors;
    LiteralErased(index);
    if index.Unspanned().StringLit? {
      MemberSame(c, d, owner, index.Unspanned().text);
    }
  }

  lemma {:induction false} IndexSame(c: Context, d: Context, e: Expr)
    requires SameContext(c, d) && e.Index? && Erase(e) == Index(Erase(e.owner), Erase(e.index))
    ensures SameErrors(ExpressionErrors(c, e), ExpressionErrors(d, Erase(e)))
    decreases e, 0, 0
  {
    hide ExpressionErrors, LiteralMemberErrors, Erase;
    IndexErrorParts(c, e);
    IndexErrorParts(d, Erase(e));
    ExpressionSame(c, d, e.owner);
    ExpressionSame(c, d, e.index);
    LiteralMemberSame(c, d, e.owner, e.index);
    Join(ExpressionErrors(c, e.owner), ExpressionErrors(d, Erase(e.owner)), ExpressionErrors(c, e.index), ExpressionErrors(d, Erase(e.index)));
    Join(ExpressionErrors(c, e.owner) + ExpressionErrors(c, e.index), ExpressionErrors(d, Erase(e.owner)) + ExpressionErrors(d, Erase(e.index)),
         LiteralMemberErrors(c, e.owner, e.index), LiteralMemberErrors(d, Erase(e.owner), Erase(e.index)));
  }

  lemma {:induction false} ConstructSame(c: Context, d: Context, e: Expr)
    requires SameContext(c, d) && e.Construct?
    ensures SameErrors(ExpressionErrors(c, e), ExpressionErrors(d, Erase(e)))
    decreases e, 0, |e.fields| + 1
  {
    hide FieldErrors, MissingErrors, KnownType;
    var b := Erase(e);
    var required := |RequiredFields(c, e.name)|;
    FieldsSame(c, d, e, |e.fields|);
    MissingSame(c, d, e, required);
    var first := When(ConstructedType(c, e.name).None?, Report(c, InvalidConstructor, [e.name]));
    var other := When(ConstructedType(d, e.name).None?, Report(d, InvalidConstructor, [e.name]));
    Join(first, other, FieldErrors(c, e, |e.fields|), FieldErrors(d, b, |e.fields|));
    Join(first + FieldErrors(c, e, |e.fields|), other + FieldErrors(d, b, |e.fields|), MissingErrors(c, e, required), MissingErrors(d, b, required));
  }

  lemma {:induction false} FieldsSame(c: Context, d: Context, e: Expr, n: nat)
    requires SameContext(c, d) && e.Construct? && n <= |e.fields|
    ensures SameErrors(FieldErrors(c, e, n), FieldErrors(d, Erase(e), n))
    decreases e, 0, n
  {
    hide ExpressionErrors, FieldCheckErrors;
    if n > 0 {
      var b := Erase(e);
      FieldsSame(c, d, e, n - 1);
      assert Operands(e)[n - 1] == e.fields[n - 1].value;
      ExpressionSame(c, d, e.fields[n - 1].value);
      FieldCheckSame(c, d, e, n - 1);
      Join(FieldErrors(c, e, n - 1), FieldErrors(d, b, n - 1),
           ExpressionErrors(c, e.fields[n - 1].value), ExpressionErrors(d, b.fields[n - 1].value));
      Join(FieldErrors(c, e, n - 1) + ExpressionErrors(c, e.fields[n - 1].value),
           FieldErrors(d, b, n - 1) + ExpressionErrors(d, b.fields[n - 1].value),
           FieldCheckErrors(c, e, n - 1), FieldCheckErrors(d, b, n - 1));
    }
  }

  lemma FieldCheckSame(c: Context, d: Context, e: Expr, i: nat)
    requires SameContext(c, d) && e.Construct? && i < |e.fields|
    ensures SameErrors(FieldCheckErrors(c, e, i), FieldCheckErrors(d, Erase(e), i))
  {
    var b, key := Erase(e), e.fields[i].key;
    assert b.fields[i] == Field(key, Erase(e.fields[i].value));
    KeysErased(e);
    FieldChecks(c, e, i);
    FieldChecks(d, b, i);
    RepeatedSame(c, d, Keys(e.fields)[..i], key);
    DeclaredSame(c, d, e, i);
    hide *;
    Join(RepeatedCheck(c, Keys(e.fields)[..i], key), RepeatedCheck(d, Keys(b.fields)[..i], key),
         DeclaredCheck(c, e.name, e.fields[i]), DeclaredCheck(d, e.name, b.fields[i]));
  }

  /** A constructor mentions each field once. */
  function RepeatedCheck(c: Context, earlier: seq<string>, key: string): Errors {
    When(key in earlier, Report(c, InvalidConstructor, [key]))
  }

  lemma RepeatedSame(c: Context, d: Context, earlier: seq<string>, key: string)
    ensures SameErrors(RepeatedCheck(c, earlier, key), RepeatedCheck(d, earlier, key))
  {
  }

  lemma FieldChecks(c: Context, e: Expr, i: nat)
    requires e.Construct? && i < |e.fields|
    ensures FieldCheckErrors(c, e, i) ==
            RepeatedCheck(c, Keys(e.fields)[..i], e.fields[i].key) + DeclaredCheck(c, e.name, e.fields[i])
  {
    hide CheckContractErrors, Keys, FindField, Resolve, FieldType;
  }

  /** The check of one constructor field against its declaration. */
  function DeclaredCheck(c: Context, name: string, field: Field): Errors {
    var id := ConstructedType(c, name);
    if id.None? then []
    else if FindField(c.types[id.value].fields, field.key).None? then Report(c, InvalidConstructor, [name, field.key])
    else CheckContractErrors(c, field.value, FieldType(c.types, c.types[id.value].fields, field.key))
  }

  lemma DeclaredSame(c: Context, d: Context, e: Expr, i: nat)
    requires SameContext(c, d) && e.Construct? && i < |e.fields|
    ensures var key := e.fields[i].key;
            SameErrors(DeclaredCheck(c, e.name, e.fields[i]), DeclaredCheck(d, e.name, Field(key, Erase(e.fields[i].value))))
  {
    hide CheckContractErrors, Erase, FindField, Resolve, FieldType;
    var id := ConstructedType(c, e.name);
    if id.Some? {
      ContractSame(c, d, e.fields[i].value, FieldType(c.types, c.types[id.value].fields, e.fields[i].key));
    }
  }

  lemma {:induction false} MissingSame(c: Context, d: Context, e: Expr, n: nat)
    requires SameContext(c, d) && e.Construct? && n <= |RequiredFields(c, e.name)|
    ensures SameErrors(MissingErrors(c, e, n), MissingErrors(d, Erase(e), n))
  {
    KeysErased(e);
    if n > 0 {
      MissingSame(c, d, e, n - 1);
    }
  }

  lemma CalledErased(c: Context, d: Context, e: Expr)
    requires SameContext(c, d) && e.Call?
    ensures CalledSymbol(d, Erase(e)) == CalledSymbol(c, e)
    ensures SameErrors(ArityErrors(c, e), ArityErrors(d, Erase(e)))
  {
    LiteralErased(e.callee);
  }

  /** The contract check of one argument of a direct call. */
  function ArgumentCheck(c: Context, e: Expr, i: nat): Errors
    requires e.Call? && i < |e.arguments|
  {
    var symbol := CalledSymbol(c, e);
    if symbol.Some? && symbol.value.FunctionSymbol? && i < |symbol.value.parameters|
    then CheckContractErrors(c, e.arguments[i], symbol.value.parameters[i]) else []
  }

  lemma ArgumentCheckSame(c: Context, d: Context, e: Expr, i: nat)
    requires SameContext(c, d) && e.Call? && i < |e.arguments| && Erase(e).Call? && |Erase(e).arguments| == |e.arguments|
    ensures SameErrors(ArgumentCheck(c, e, i), ArgumentCheck(d, Erase(e), i))
  {
    CalledErased(c, d, e);
    assert Erase(e).arguments[i] == Erase(e.arguments[i]);
    hide CheckContractErrors, CalledSymbol, Erase;
    var symbol := CalledSymbol(c, e);
    if symbol.Some? && symbol.value.FunctionSymbol? && i < |symbol.value.parameters| {
      ContractSame(c, d, e.arguments[i], symbol.value.parameters[i]);
    }
  }

  lemma CallErased(e: Expr)
    requires e.Call?
    ensures Erase(e).Call? && |Erase(e).arguments| == |e.arguments|
  {
  }

  lemma NoArguments(c: Context, d: Context, e: Expr)
    requires e.Call? && Erase(e).Call?
    ensures SameErrors(ArgumentErrors(c, e, 0), ArgumentErrors(d, Erase(e), 0))
  {
    hide Erase, CalledSymbol;
  }

  lemma LastArgument(c: Context, e: Expr, n: nat)
    requires e.Call? && 0 < n <= |e.arguments|
    ensures ArgumentErrors(c, e, n) == ArgumentErrors(c, e, n - 1) + ArgumentCheck(c, e, n - 1)
  {
    hide CheckContractErrors, CalledSymbol;
  }

  lemma {:induction false} ArgumentsSame(c: Context, d: Context, e: Expr, n: nat)
    requires SameContext(c, d) && e.Call? && n <= |e.arguments|
    ensures SameErrors(ArgumentErrors(c, e, n), ArgumentErrors(d, Erase(e), n))
  {
    hide *;
    var b := Erase(e);
    CallErased(e);
    NoArguments(c, d, e);
    if n > 0 {
      LastArgument(c, e, n);
      LastArgument(d, b, n);
      ArgumentsSame(c, d, e, n - 1);
      ArgumentCheckSame(c, d, e, n - 1);
      Join(ArgumentErrors(c, e, n - 1), ArgumentErrors(d, b, n - 1), ArgumentCheck(c, e, n - 1), ArgumentCheck(d, b, n - 1));
    }
  }

  lemma {:induction false} CallSame(c: Context, d: Context, e: Expr)
    requires SameContext(c, d) && e.Call?
    ensures SameErrors(ExpressionErrors(c, e), ExpressionErrors(d, Erase(e)))
    decreases e, 0, |Operands(e)| + 1
  {
    hide OperandErrors, ArityErrors, ArgumentErrors;
    var b := Erase(e);
    OperandsErased(e);
    OperandsSame(c, d, e, 0, 1);
    CalledErased(c, d, e);
    OperandsSame(c, d, e, 1, |Operands(e)|);
    ArgumentsSame(c, d, e, |e.arguments|);
    var p, q := OperandErrors(c, e, 0, 1), OperandErrors(d, b, 0, 1);
    var p2, q2 := ArityErrors(c, e), ArityErrors(d, b);
    var p3, q3 := OperandErrors(c, e, 1, |Operands(e)|), OperandErrors(d, b, 1, |Operands(b)|);
    Join(p, q, p2, q2);
    Join(p + p2, q + q2, p3, q3);
    Join(p + p2 + p3, q + q2 + q3, ArgumentErrors(c, e, |e.arguments|), ArgumentErrors(d, b, |b.arguments|));
  }

  lemma TargetContractErased(c: Context, d: Context, target: Expr)
    requires SameContext(c, d)
    ensures TargetContract(d, Erase(target)) == TargetContract(c, target)
    ensures CapturesRoot(d, Erase(target)) == CapturesRoot(c, target)
  {
    LiteralErased(target);
    RootErased(target);
    KnownTypeErased(c.types, c.scopes, target);
  }

  lemma {:induction false} TargetSame(here: Context, there: Context, target: Expr)
    requires SameContext(here, there)
    ensures SameErrors(TargetErrors(here, target), TargetErrors(there, Erase(target)))
    decreases target, 2, 0
  {
    hide ExpressionErrors;
    LiteralErased(target);
    ExpressionSame(here, there, target);
  }

  lemma CaptureSame(here: Context, there: Context, target: Expr)
    requires SameContext(here, there)
    ensures SameErrors(CaptureErrors(here, target), CaptureErrors(there, Erase(target)))
  {
    hide CapturesRoot;
    RootErased(target);
    TargetContractErased(here, there, target);
  }

  lemma {:induction false} AssignmentSame(c: Context, d: Context, e: Expr)
    requires SameContext(c, d) && e.Assignment? && Erase(e) == Assignment(Erase(e.target), Erase(e.value))
    ensures SameErrors(AssignmentErrors(c, e), AssignmentErrors(d, Erase(e)))
    decreases e, 0, 0
  {
    hide Erase, ExpressionErrors, TargetErrors, CaptureErrors, CheckContractErrors, TargetContract, CapturesRoot;
    var b := Erase(e);
    var here, there := Here(c, e.target.Where()), Here(d, b.target.Where());
    TargetSame(here, there, e.target);
    CaptureSame(here, there, e.target);
    TargetContractErased(c, d, e.target);
    ExpressionSame(c, d, e.value);
    ContractSame(c, d, e.value, TargetContract(c, e.target));
    var p, q := TargetErrors(here, e.target), TargetErrors(there, b.target);
    var p2, q2 := CaptureErrors(here, e.target), CaptureErrors(there, b.target);
    var p3, q3 := ExpressionErrors(c, e.value), ExpressionErrors(d, b.value);
    Join(p, q, p2, q2);
    Join(p + p2, q + q2, p3, q3);
    Join(p + p2 + p3, q + q2 + q3, CheckContractErrors(c, e.value, TargetContract(c, e.target)),
         CheckContractErrors(d, b.value, TargetContract(d, b.target)));
  }

  // ----- statements -----

  lemma {:induction false} TypeNamesErased(s: Stmt)
    ensures TypeNames(EraseStmt(s)) == TypeNames(s)
    decreases s, 1, 0
  {
    hide Erase;
    if s.LocatedStmt? {
      TypeNamesErased(s.inner);
    } else if s.Block? {
      BlockTypeNamesErased(s, |s.statements|);
    } else if s.Match? {
      ArmTypeNamesErased(s, |s.arms|);
    } else if s.Parallel? || s.While? || s.For? || s.Function? {
      TypeNamesErased(s.body);
    } else if s.If? {
      TypeNamesErased(s.thenBranch);
      if s.elseBranch.Some? {
        TypeNamesErased(s.elseBranch.value);
      }
    }
  }

  lemma {:induction false} BlockTypeNamesErased(s: Stmt, n: nat)
    requires s.Block? && n <= |s.statements|
    ensures BlockTypeNames(EraseStmt(s), n) == BlockTypeNames(s, n)
    decreases s, 0, n
  {
    hide Erase;
    if n > 0 {
      BlockTypeNamesErased(s, n - 1);
      TypeNamesErased(s.statements[n - 1]);
    }
  }

  lemma {:induction false} ArmTypeNamesErased(s: Stmt, n: nat)
    requires s.Match? && n <= |s.arms|
    ensures ArmTypeNames(EraseStmt(s), n) == ArmTypeNames(s, n)
    decreases s, 0, n
  {
    hide Erase;
    if n > 0 {
      ArmTypeNamesErased(s, n - 1);
      TypeNamesErased(s.arms[n - 1].body);
    }
  }

  lemma AfterSame(c: Context, d: Context, s: Stmt)
    requires SameContext(c, d)
    ensures SameContext(AfterStatement(c, s), AfterStatement(d, EraseStmt(s)))
  {
    hide TypeNames, Erase;
    TypeNamesErased(s);
    EraseUnspannedStmt(s);
    StatementKind(s.Unspanned());
  }

  /** The parts of a declaration the analyzer reads directly. */
  lemma StatementKind(s: Stmt)
    requires !s.LocatedStmt?
    ensures var b := EraseStmt(s);
            && (b.Let? == s.Let?) && (b.Function? == s.Function?)
            && (s.Let? ==> b == Let(s.name, s.annotation, Erase(s.value)))
            && (s.Function? ==> b == Function(s.name, s.parameters, s.result, EraseStmt(s.body)))
  {
    hide Erase;
  }

  lemma {:induction false} ContextAtSame(c: Context, d: Context, stmts: seq<Stmt>, bare: seq<Stmt>, n: nat)
    requires SameContext(c, d) && ErasedList(stmts, bare) && n <= |stmts|
    ensures SameContext(ContextAt(c, stmts, n), ContextAt(d, bare, n))
  {
    hide AfterStatement, EraseStmt;
    if n > 0 {
      ContextAtSame(c, d, stmts, bare, n - 1);
      AfterSame(ContextAt(c, stmts, n - 1), ContextAt(d, bare, n - 1), stmts[n - 1]);
    }
  }

  lemma {:induction false} HoistSame(c: Context, d: Context, stmts: seq<Stmt>, bare: seq<Stmt>, n: nat)
    requires SameContext(c, d) && ErasedList(stmts, bare) && n <= |stmts|
    ensures SameContext(Hoist(c, stmts, n), Hoist(d, bare, n))
  {
    hide EraseStmt;
    if n > 0 {
      HoistSame(c, d, stmts, bare, n - 1);
      EraseUnspannedStmt(stmts[n - 1]);
      StatementKind(stmts[n - 1].Unspanned());
    }
  }

  lemma {:induction false} ParameterAnnotationSame(c: Context, d: Context, parameters: seq<Parameter>, n: nat)
    requires SameContext(c, d) && n <= |parameters|
    ensures SameErrors(ParameterAnnotationErrors(c, parameters, n), ParameterAnnotationErrors(d, parameters, n))
  {
    if n > 0 {
      ParameterAnnotationSame(c, d, parameters, n - 1);
    }
  }

  lemma FunctionHoistSame(c: Context, d: Context, s: Stmt)
    requires SameContext(c, d) && s.Function? && EraseStmt(s).Function?
    ensures SameErrors(FunctionHoistErrors(c, s), FunctionHoistErrors(d, EraseStmt(s)))
  {
    hide EraseStmt, ParameterAnnotationErrors;
    StatementKind(s);
    ParameterAnnotationSame(c, d, s.parameters, |s.parameters|);
    Join(ParameterAnnotationErrors(c, s.parameters, |s.parameters|), ParameterAnnotationErrors(d, s.parameters, |s.parameters|),
         OptionalAnnotationErrors(c, s.result), OptionalAnnotationErrors(d, s.result));
    Join(ParameterAnnotationErrors(c, s.parameters, |s.parameters|) + OptionalAnnotationErrors(c, s.result),
         ParameterAnnotationErrors(d, s.parameters, |s.parameters|) + OptionalAnnotationErrors(d, s.result),
         DeclareErrors(c, s.name), DeclareErrors(d, s.name));
  }

  lemma {:induction false} HoistErrorsSame(c: Context, d: Context, stmts: seq<Stmt>, bare: seq<Stmt>, n: nat)
    requires SameContext(c, d) && ErasedList(stmts, bare) && n <= |stmts|
    ensures SameErrors(HoistErrors(c, stmts, n), HoistErrors(d, bare, n))
  {
    hide EraseStmt, Hoist, FunctionHoistErrors;
    if n > 0 {
      HoistErrorsSame(c, d, stmts, bare, n - 1);
      HoistSame(c, d, stmts, bare, n - 1);
      EraseUnspannedStmt(stmts[n - 1]);
      var s := stmts[n - 1].Unspanned();
      StatementKind(s);
      if s.Function? {
        var here := Here(Hoist(c, stmts, n - 1), stmts[n - 1].Where());
        var there := Here(Hoist(d, bare, n - 1), bare[n - 1].Where());
        FunctionHoistSame(here, there, s);
        Join(HoistErrors(c, stmts, n - 1), HoistErrors(d, bare, n - 1),
             FunctionHoistErrors(here, s), FunctionHoistErrors(there, bare[n - 1].Unspanned()));
      }
    }
  }

  lemma {:induction false} ParametersSame(c: Context, d: Context, parameters: seq<Parameter>, n: nat)
    requires SameContext(c, d) && n <= |parameters|
    ensures SameContext(DeclareParameters(c, parameters, n), DeclareParameters(d, parameters, n))
    ensures SameErrors(ParameterErrors(c, parameters, n), ParameterErrors(d, parameters, n))
  {
    if n > 0 {
      ParametersSame(c, d, parameters, n - 1);
      var p, q := DeclareParameters(c, parameters, n - 1), DeclareParameters(d, parameters, n - 1);
      Join(ParameterErrors(c, parameters, n - 1), ParameterErrors(d, parameters, n - 1),
           DeclareErrors(p, parameters[n - 1].name), DeclareErrors(q, parameters[n - 1].name));
    }
  }

  lemma {:induction false} TypeFieldsSame(c: Context, d: Context, fields: seq<TypeField>, n: nat)
    requires SameContext(c, d) && n <= |fields|
    ensures SameErrors(TypeFieldErrors(c, fields, n), TypeFieldErrors(d, fields, n))
  {
    if n > 0 {
      TypeFieldsSame(c, d, fields, n - 1);
    }
  }

  lemma TypeDeclSame(c: Context, d: Context, name: string, fields: seq<TypeField>)
    requires SameContext(c, d)
    ensures SameErrors(TypeDeclErrors(c, name, fields), TypeDeclErrors(d, name, fields))
  {
    hide TypeFieldErrors, CyclicName, IsReserved;
    TypeFieldsSame(c, d, fields, |fields|);
    var p, q := DeclarationErrors(c, name), DeclarationErrors(d, name);
    Join(p, q, TypeFieldErrors(c, fields, |fields|), TypeFieldErrors(d, fields, |fields|));
    Join(p + TypeFieldErrors(c, fields, |fields|), q + TypeFieldErrors(d, fields, |fields|),
         When(CyclicName(c.types, name), Report(c, InvalidTypeDeclaration, [name, name])),
         When(CyclicName(d.types, name), Report(d, InvalidTypeDeclaration, [name, name])));
  }

  lemma LetSame(c: Context, d: Context, s: Stmt)
    requires SameContext(c, d) && s.Let?
    ensures SameErrors(LetErrors(c, s), LetErrors(d, Let(s.name, s.annotation, Erase(s.value))))
  {
    hide ExpressionErrors, CheckContractErrors, Erase;
    var contract := ResolveAnnotation(c.types, s.annotation);
    ExpressionSame(c, d, s.value);
    ContractSame(c, d, s.value, contract);
    var p, q := ExpressionErrors(c, s.value), ExpressionErrors(d, Erase(s.value));
    var p2, q2 := OptionalAnnotationErrors(c, s.annotation), OptionalAnnotationErrors(d, s.annotation);
    var p3, q3 := CheckContractErrors(c, s.value, contract), CheckContractErrors(d, Erase(s.value), contract);
    Join(p, q, p2, q2);
    Join(p + p2, q + q2, p3, q3);
    Join(p + p2 + p3, q + q2 + q3, DeclareErrors(c, s.name), DeclareErrors(d, s.name));
  }

  lemma ReturnSame(c: Context, d: Context, returned: Option<Expr>)
    requires SameContext(c, d)
    ensures SameErrors(ReturnErrors(c, returned), ReturnErrors(d, if returned.Some? then Some(Erase(returned.value)) else None))
  {
    hide ExpressionErrors, CheckContractErrors, Erase;
    var e := if returned.Some? then returned.value else NullLit;
    NullErased();
    ContractSame(c, d, e, c.result);
    ExpressionSame(c, d, e);
  }

  lemma NullErased()
    ensures Erase(NullLit) == NullLit
  {
  }

  lemma {:induction false} BodyErrorsSame(c: Context, d: Context, body: Stmt)
    requires SameContext(c, d)
    ensures SameErrors(BodyErrors(c, body), BodyErrors(d, EraseStmt(body)))
    decreases body, if body.Block? then 0 else 2, |Contents(body)| + 1
  {
    if body.LocatedStmt? {
      BodyErrorsSame(c.(span := Some(body.span)), d, body.inner);
      return;
    }
    ContentsErased(body);
    hide EraseStmt, HoistErrors, Hoist, SequenceErrors;
    var bare := EraseStmt(body);
    var n := |Contents(body)|;
    HoistErrorsSame(c, d, Contents(body), Contents(bare), n);
    HoistSame(c, d, Contents(body), Contents(bare), n);
    SequenceSame(Hoist(c, Contents(body), n), Hoist(d, Contents(bare), n), body, n);
    Join(HoistErrors(c, Contents(body), n), HoistErrors(d, Contents(bare), n),
         SequenceErrors(Hoist(c, Contents(body), n), body, n), SequenceErrors(Hoist(d, Contents(bare), n), bare, n));
  }

  lemma {:induction false} SequenceSame(c: Context, d: Context, body: Stmt, n: nat)
    requires SameContext(c, d) && !body.LocatedStmt?
    requires n <= |Contents(body)| && ErasedList(Contents(body), Contents(EraseStmt(body)))
    ensures SameErrors(SequenceErrors(c, body, n), SequenceErrors(d, EraseStmt(body), n))
    decreases body, if body.Block? then 0 else 2, n
  {
    hide EraseStmt, StatementErrors, ContextAt;
    if n > 0 {
      var stmts, bare := Contents(body), Contents(EraseStmt(body));
      SequenceSame(c, d, body, n - 1);
      ContextAtSame(c, d, stmts, bare, n - 1);
      StatementSame(ContextAt(c, stmts, n - 1), ContextAt(d, bare, n - 1), stmts[n - 1]);
      Join(SequenceErrors(c, body, n - 1), SequenceErrors(d, EraseStmt(body), n - 1),
           StatementErrors(ContextAt(c, stmts, n - 1), stmts[n - 1]), StatementErrors(ContextAt(d, bare, n - 1), bare[n - 1]));
    }
  }

  lemma {:induction false} ArmsSame(c: Context, d: Context, s: Stmt, n: nat)
    requires SameContext(c, d) && s.Match? && n <= |s.arms|
    ensures EraseStmt(s).Match? && |EraseStmt(s).arms| == |s.arms|
    ensures SameErrors(ArmErrors(c, s, n), ArmErrors(d, EraseStmt(s), n))
    decreases s, 0, n
  {
    hide BodyErrors, ArmTypeNames, Erase;
    if n > 0 {
      var b := EraseStmt(s);
      ArmsSame(c, d, s, n - 1);
      ArmTypeNamesErased(s, n - 1);
      var inside, other := EnterScope(WithTypes(c, ArmTypeNames(s, n - 1))), EnterScope(WithTypes(d, ArmTypeNames(b, n - 1)));
      BodyErrorsSame(inside, other, s.arms[n - 1].body);
      Join(ArmErrors(c, s, n - 1), ArmErrors(d, b, n - 1),
           BodyErrors(inside, s.arms[n - 1].body), BodyErrors(other, b.arms[n - 1].body));
    }
  }

  lemma {:induction false} StatementSame(c: Context, d: Context, s: Stmt)
    requires SameContext(c, d)
    ensures SameErrors(StatementErrors(c, s), StatementErrors(d, EraseStmt(s)))
    decreases s, 1, 0
  {
    hide Erase, ExpressionErrors, BodyErrors, TypeDeclErrors, LetErrors, ReturnErrors;
    if s.LocatedStmt? {
      StatementSame(c.(span := Some(s.span)), d, s.inner);
    } else if s.TypeDecl? {
      TypeDeclSame(c, d, s.name, s.fields);
    } else if s.Let? {
      LetSame(c, d, s);
    } else if s.ExprStmt? {
      ExpressionSame(c, d, s.expression);
    } else if s.Block? {
      BodyErrorsSame(EnterScope(c), EnterScope(d), s);
    } else if s.Function? {
      FunctionSame(c, d, s);
    } else if s.Return? {
      ReturnSame(c, d, s.returned);
    } else if s.If? {
      IfSame(c, d, s);
    } else if s.While? || s.For? || s.Parallel? {
      LoopSame(c, d, s);
    } else if s.Match? {
      ArmsSame(c, d, s, |s.arms|);
      ExpressionSame(c, d, s.subject);
      Join(ExpressionErrors(c, s.subject), ExpressionErrors(d, Erase(s.subject)),
           ArmErrors(c, s, |s.arms|), ArmErrors(d, EraseStmt(s), |s.arms|));
    }
  }

  lemma {:induction false} FunctionSame(c: Context, d: Context, s: Stmt)
    requires SameContext(c, d) && s.Function?
    ensures SameErrors(StatementErrors(c, s), StatementErrors(d, EraseStmt(s)))
    decreases s, 0, 0
  {
    hide BodyErrors, ParameterErrors, DeclareParameters;
    StatementKind(s);
    var b := EraseStmt(s);
    ParametersSame(FunctionContext(c, s), FunctionContext(d, b), s.parameters, |s.parameters|);
    BodyErrorsSame(InsideFunction(c, s), InsideFunction(d, b), s.body);
    Join(ParameterErrors(FunctionContext(c, s), s.parameters, |s.parameters|),
         ParameterErrors(FunctionContext(d, b), b.parameters, |b.parameters|),
         BodyErrors(InsideFunction(c, s), s.body), BodyErrors(InsideFunction(d, b), b.body));
  }

  lemma {:induction false} IfSame(c: Context, d: Context, s: Stmt)
    requires SameContext(c, d) && s.If?
    ensures SameErrors(StatementErrors(c, s), StatementErrors(d, EraseStmt(s)))
    decreases s, 0, 0
  {
    hide BodyErrors, ExpressionErrors, Erase, TypeNames;
    var b := EraseStmt(s);
    ExpressionSame(c, d, s.condition);
    BodyErrorsSame(EnterScope(c), EnterScope(d), s.thenBranch);
    var p, q := ExpressionErrors(c, s.condition), ExpressionErrors(d, b.condition);
    var p2, q2 := BodyErrors(EnterScope(c), s.thenBranch), BodyErrors(EnterScope(d), b.thenBranch);
    Join(p, q, p2, q2);
    if s.elseBranch.Some? {
      TypeNamesErased(s.thenBranch);
      var inside := EnterScope(WithTypes(c, TypeNames(s.thenBranch)));
      var other := EnterScope(WithTypes(d, TypeNames(b.thenBranch)));
      BodyErrorsSame(inside, other, s.elseBranch.value);
      Join(p + p2, q + q2, BodyErrors(inside, s.elseBranch.value), BodyErrors(other, b.elseBranch.value));
    }
  }

  lemma {:induction false} LoopSame(c: Context, d: Context, s: Stmt)
    requires SameContext(c, d) && (s.While? || s.For? || s.Parallel?)
    ensures SameErrors(StatementErrors(c, s), StatementErrors(d, EraseStmt(s)))
    decreases s, 0, 0
  {
    hide BodyErrors, ExpressionErrors, Erase;
    var b := EraseStmt(s);
    var head := if s.While? then s.condition else s.iterable;
    var inside := if s.While? then LoopContext(c, SerialLoop) else IterationContext(c, s);
    var other := if s.While? then LoopContext(d, SerialLoop) else IterationContext(d, b);
    ExpressionSame(c, d, head);
    BodyErrorsSame(inside, other, s.body);
    Join(ExpressionErrors(c, head), ExpressionErrors(d, Erase(head)), BodyErrors(inside, s.body), BodyErrors(other, EraseStmt(s.body)));
  }
}
