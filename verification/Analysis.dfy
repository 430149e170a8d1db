/**
 * Meaning of the semantic pass (src/semantic): which errors a statement list
 * produces in a static context, and how declarations change that context. The
 * analyzer saves and restores everything but its error list, its scopes and the
 * set of declared type names, so its specification is compositional.
 */
module Analysis {
  import opened Wrappers
  import opened Source
  import opened Ast
  import opened Types

  datatype Symbol =
    | VariableSymbol(annotation: Option<ResolvedType>)
    | ParameterSymbol(annotation: Option<ResolvedType>)
    | LoopSymbol
    | FunctionSymbol(arity: nat, parameters: seq<Option<ResolvedType>>, result: Option<ResolvedType>)
    | BuiltinSymbol
  {
    predicate IsMutable() { VariableSymbol? || ParameterSymbol? || LoopSymbol? }

    /** The contract of a mutable binding. */
    function Contract(): Option<ResolvedType> {
      if VariableSymbol? || ParameterSymbol? then annotation else None
    }
  }

  type Scopes = seq<map<string, Symbol>>

  datatype LoopKind = SerialLoop | ParallelLoop

  /** Scope depth and function depth at a worker boundary. */
  datatype Boundary = Boundary(depth: nat, functions: nat)

  datatype Context = Context(
    types: seq<TypeDef>,
    declared: set<string>,
    result: Option<ResolvedType>,
    loops: seq<LoopKind>,
    span: Option<Span>,
    scopes: Scopes,
    functionDepth: nat,
    boundaries: seq<Boundary>)

  datatype ErrorKind =
    | UndefinedSymbol | DuplicateDeclaration | ReturnOutsideFunction | ImmutableAssignment
    | InvalidAssignmentTarget | WrongArgumentCount | CapturedAssignment | ReturnAcrossParallel
    | BreakOutsideLoop | ContinueOutsideLoop | BreakAcrossParallel | UnknownType | TypeMismatch
    | InvalidTypeDeclaration | InvalidConstructor

  datatype SemanticError = SemanticError(kind: ErrorKind, about: seq<string>, span: Option<Span>)

  type Errors = seq<SemanticError>

  function Report(c: Context, kind: ErrorKind, about: seq<string>): Errors {
    [SemanticError(kind, about, c.span)]
  }

  function When(condition: bool, errors: Errors): Errors {
    if condition then errors else []
  }

  // ----- scopes -----

  /** The innermost declaration of a name and the level it was found at. */
  function LookUpDepth(scopes: Scopes, name: string): (found: Option<(nat, Symbol)>)
    ensures found.Some? ==> found.value.0 < |scopes|
    ensures found.Some? ==> name in scopes[found.value.0] && scopes[found.value.0][name] == found.value.1
  {
    if scopes == [] then None
    else if name in scopes[|scopes| - 1] then Some((|scopes| - 1, scopes[|scopes| - 1][name]))
    else LookUpDepth(scopes[..|scopes| - 1], name)
  }

  function LookUpSymbol(scopes: Scopes, name: string): Option<Symbol> {
    var found := LookUpDepth(scopes, name);
    if found.Some? then Some(found.value.1) else None
  }

  /** The first declaration of a name in a scope is kept. */
  function Declare(c: Context, name: string, symbol: Symbol): Context {
    if c.scopes == [] || name in c.scopes[|c.scopes| - 1] then c
    else
      var scope: map<string, Symbol> := c.scopes[|c.scopes| - 1][name := symbol];
      c.(scopes := c.scopes[|c.scopes| - 1 := scope])
  }

  function DeclareErrors(c: Context, name: string): Errors {
    When(c.scopes != [] && name in c.scopes[|c.scopes| - 1], Report(c, DuplicateDeclaration, [name]))
  }

  function EnterScope(c: Context): Context {
    c.(scopes := c.scopes + [map[]])
  }

  function Here(c: Context, span: Option<Span>): Context {
    c.(span := span.Or(c.span))
  }

  // ----- static types -----

  /** The name of the type every successful evaluation of `e` has, when that is known. */
  function KnownType(types: seq<TypeDef>, scopes: Scopes, e: Expr): Option<string>
    decreases e, 1
  {
    match e
    case Located(_, inner) => KnownType(types, scopes, inner)
    case Property(owner, name) => KnownField(types, scopes, owner, name)
    case Index(owner, index) =>
      if index.Unspanned().StringLit? then KnownField(types, scopes, owner, index.Unspanned().text) else None
    case Construct(name, _) =>
      var t := Resolve(types, name);
      if t.Some? then Some(TypeName(types, t.value)) else None
    case IntegerLit(_) => Some("int")
    case FloatLit(_) => Some("float")
    case BooleanLit(_) => Some("bool")
    case StringLit(_) => Some("string")
    case DurationLit(_) => Some("duration")
    case NullLit => Some("null")
    case ArrayLit(_) => Some("array")
    case ObjectLit(_) => Some("object")
    case Identifier(name) => KnownSymbol(types, LookUpSymbol(scopes, name))
    case Assignment(_, value) => KnownType(types, scopes, value)
    case Call(callee, _) =>
      if callee.Unspanned().Identifier? then KnownResult(types, LookUpSymbol(scopes, callee.Unspanned().name)) else None
    case Unary(op, operand) =>
      if op.Not? then Some("bool")
      else
        var t := KnownType(types, scopes, operand);
        if t == Some("int") || t == Some("float") then t else None
    case Binary(left, op, right) =>
      if IsComparison(op) || IsLogical(op) then Some("bool")
      else
        var l, r := KnownType(types, scopes, left), KnownType(types, scopes, right);
        if l.Some? && r.Some? then KnownArithmetic(op, l.value, r.value) else None
    case Effect(_, _) => None
  }

  predicate IsComparison(op: BinaryOp) {
    op.Equal? || op.NotEqual? || op.Less? || op.LessEqual? || op.Greater? || op.GreaterEqual?
  }

  function KnownArithmetic(op: BinaryOp, l: string, r: string): Option<string> {
    if op.Add? && (l == "string" || r == "string") then Some("string")
    else if op.Add? && l == "bytes" && r == "bytes" then Some("bytes")
    else if (op.Add? || op.Subtract?) && l == "duration" && r == "duration" then Some("duration")
    else if l == "int" && r == "int" then Some("int")
    else if (l == "int" || l == "float") && (r == "int" || r == "float") then Some("float")
    else None
  }

  function KnownSymbol(types: seq<TypeDef>, symbol: Option<Symbol>): Option<string> {
    if symbol.None? then None
    else
      match symbol.value
      case VariableSymbol(annotation) => NameOfType(types, annotation)
      case ParameterSymbol(annotation) => NameOfType(types, annotation)
      case FunctionSymbol(_, _, _) => Some("function")
      case BuiltinSymbol => Some("function")
      case LoopSymbol => None
  }

  function NameOfType(types: seq<TypeDef>, t: Option<ResolvedType>): Option<string> {
    if t.Some? && InRange(types, t.value) then Some(TypeName(types, t.value)) else None
  }

  function KnownResult(types: seq<TypeDef>, symbol: Option<Symbol>): Option<string> {
    if symbol.Some? && symbol.value.FunctionSymbol? then NameOfType(types, symbol.value.result) else None
  }

  function KnownField(types: seq<TypeDef>, scopes: Scopes, owner: Expr, name: string): Option<string>
    decreases owner, 2
  {
    var known := KnownType(types, scopes, owner);
    if known.None? then None
    else
      var t := Resolve(types, known.value);
      if t.Some? && t.value.Named? then
        var field := FindField(types[t.value.id].fields, name);
        if field.Some? then Some(field.value.annotation.name) else None
      else None
  }

  function CheckTypeErrors(c: Context, e: Expr, expected: ResolvedType): Errors
    requires InRange(c.types, expected)
  {
    var known := KnownType(c.types, c.scopes, e);
    When(known.Some? && known.value != TypeName(c.types, expected),
         Report(Here(c, e.Where()), TypeMismatch, [TypeName(c.types, expected)] + (if known.Some? then [known.value] else [])))
  }

  function CheckContractErrors(c: Context, e: Expr, expected: Option<ResolvedType>): Errors {
    if expected.Some? && InRange(c.types, expected.value) then CheckTypeErrors(c, e, expected.value) else []
  }

  function CheckMemberErrors(c: Context, owner: Expr, name: string): Errors {
    var known := KnownType(c.types, c.scopes, owner);
    if known.None? then []
    else
      var t := Resolve(c.types, known.value);
      When(t.Some? && t.value.Named? && FindField(c.types[t.value.id].fields, name).None?,
           Report(c, TypeMismatch, [known.value, name]))
  }

  function MemberType(c: Context, target: Expr): (t: Option<ResolvedType>)
    ensures t.Some? ==> InRange(c.types, t.value)
  {
    var known := KnownType(c.types, c.scopes, target);
    if known.Some? then Resolve(c.types, known.value) else None
  }

  // ----- expressions -----

  /** The variable an assignment target is rooted in. */
  function RootOf(target: Expr): Option<string> {
    match target
    case Located(_, inner) => RootOf(inner)
    case Property(owner, _) => RootOf(owner)
    case Index(owner, _) => RootOf(owner)
    case Identifier(name) => Some(name)
    case _ => None
  }

  /** Writes to anything declared outside the innermost worker. */
  predicate CapturesRoot(c: Context, target: Expr) {
    var root := RootOf(target);
    && root.Some? && c.boundaries != []
    && var found := LookUpDepth(c.scopes, root.value);
       && found.Some? && found.value.0 < c.boundaries[|c.boundaries| - 1].depth && found.value.1.IsMutable()
  }

  function UndefinedErrors(c: Context, name: string): Errors {
    When(LookUpSymbol(c.scopes, name).None?, Report(c, UndefinedSymbol, [name]))
  }

  function ExpressionErrors(c: Context, e: Expr): Errors
    decreases e, 1, 0
  {
    match e
    case Located(span, inner) => ExpressionErrors(c.(span := Some(span)), inner)
    case Identifier(name) => UndefinedErrors(c, name)
    case Construct(name, fields) =>
      When(ConstructedType(c, name).None?, Report(c, InvalidConstructor, [name]))
      + FieldErrors(c, e, |fields|)
      + MissingErrors(c, e, |RequiredFields(c, name)|)
    case Assignment(target, value) => AssignmentErrors(c, e)
    case Call(callee, arguments) =>
      OperandErrors(c, e, 0, 1) + ArityErrors(c, e) + OperandErrors(c, e, 1, |Operands(e)|)
      + ArgumentErrors(c, e, |arguments|)
    case Binary(left, _, right) => ExpressionErrors(c, left) + ExpressionErrors(c, right)
    case Property(owner, name) => ExpressionErrors(c, owner) + CheckMemberErrors(c, owner, name)
    case Index(owner, index) =>
      ExpressionErrors(c, owner) + ExpressionErrors(c, index)
      + (if index.Unspanned().StringLit? then CheckMemberErrors(c, owner, index.Unspanned().text) else [])
    case _ => OperandErrors(c, e, 0, |Operands(e)|)
  }

  /** The errors of operands `lo..hi`, in order. */
  function OperandErrors(c: Context, e: Expr, lo: nat, hi: nat): Errors
    requires hi <= |Operands(e)|
    decreases e, 0, hi
  {
    if hi <= lo then [] else OperandErrors(c, e, lo, hi - 1) + ExpressionErrors(c, Operands(e)[hi - 1])
  }

  function ConstructedType(c: Context, name: string): (id: Option<nat>)
    ensures id.Some? ==> id.value < |c.types|
  {
    var t := Resolve(c.types, name);
    if t.Some? && t.value.Named? then Some(t.value.id) else None
  }

  function RequiredFields(c: Context, name: string): seq<TypeField> {
    var id := ConstructedType(c, name);
    if id.Some? then c.types[id.value].fields else []
  }

  /** The first `n` fields of a constructor expression. */
  function FieldErrors(c: Context, e: Expr, n: nat): Errors
    requires e.Construct? && n <= |e.fields|
    decreases e, 0, n
  {
    if n == 0 then []
    else
      assert Operands(e)[n - 1] == e.fields[n - 1].value;
      FieldErrors(c, e, n - 1) + ExpressionErrors(c, e.fields[n - 1].value) + FieldCheckErrors(c, e, n - 1)
  }

  function FieldCheckErrors(c: Context, e: Expr, i: nat): Errors
    requires e.Construct? && i < |e.fields|
  {
    var key := e.fields[i].key;
    var id := ConstructedType(c, e.name);
    When(key in Keys(e.fields)[..i], Report(c, InvalidConstructor, [key]))
    + (if id.None? then []
       else if FindField(c.types[id.value].fields, key).None? then Report(c, InvalidConstructor, [e.name, key])
       else CheckContractErrors(c, e.fields[i].value, FieldType(c.types, c.types[id.value].fields, key)))
  }

  /** The first `n` declared fields, each of which the constructor must mention. */
  function MissingErrors(c: Context, e: Expr, n: nat): Errors
    requires e.Construct? && n <= |RequiredFields(c, e.name)|
  {
    if n == 0 then []
    else
      MissingErrors(c, e, n - 1)
      + When(RequiredFields(c, e.name)[n - 1].name !in Keys(e.fields),
             Report(c, InvalidConstructor, [RequiredFields(c, e.name)[n - 1].name]))
  }

  function CalledSymbol(c: Context, e: Expr): Option<Symbol>
    requires e.Call?
  {
    var callee := e.callee.Unspanned();
    if !callee.Identifier? then None
    else
      var symbol := LookUpSymbol(c.scopes, callee.name);
      if symbol.Some? && symbol.value.FunctionSymbol? then symbol else None
  }

  function ArityErrors(c: Context, e: Expr): Errors
    requires e.Call?
  {
    var symbol := CalledSymbol(c, e);
    When(symbol.Some? && symbol.value.FunctionSymbol? && symbol.value.arity != |e.arguments|,
         Report(c, WrongArgumentCount, [if e.callee.Unspanned().Identifier? then e.callee.Unspanned().name else ""]))
  }

  /** Contracts of the first `n` arguments of a direct call. */
  function ArgumentErrors(c: Context, e: Expr, n: nat): Errors
    requires e.Call? && n <= |e.arguments|
  {
    if n == 0 then []
    else
      var symbol := CalledSymbol(c, e);
      ArgumentErrors(c, e, n - 1)
      + (if symbol.Some? && symbol.value.FunctionSymbol? && n <= |symbol.value.parameters|
         then CheckContractErrors(c, e.arguments[n - 1], symbol.value.parameters[n - 1]) else [])
  }

  function TargetContract(c: Context, target: Expr): Option<ResolvedType> {
    var bare := target.Unspanned();
    if bare.Property? || bare.Index? then MemberType(c, target)
    else if bare.Identifier? then
      var symbol := LookUpSymbol(c.scopes, bare.name);
      if symbol.Some? then symbol.value.Contract() else None
    else None
  }

  /** What an assignment reports about its target, with the location already at the target. */
  function TargetErrors(here: Context, target: Expr): Errors
    decreases target, 2, 0
  {
    var bare := target.Unspanned();
    if bare.Identifier? then
      var symbol := LookUpSymbol(here.scopes, bare.name);
      UndefinedErrors(here, bare.name)
      + When(symbol.Some? && !symbol.value.IsMutable(), Report(here, ImmutableAssignment, [bare.name]))
    else if bare.Property? || bare.Index? then ExpressionErrors(here, target)
    else Report(here, InvalidAssignmentTarget, []) + ExpressionErrors(here, target)
  }

  function CaptureErrors(here: Context, target: Expr): Errors {
    When(CapturesRoot(here, target), Report(here, CapturedAssignment, if RootOf(target).Some? then [RootOf(target).value] else []))
  }

  function AssignmentErrors(c: Context, e: Expr): Errors
    requires e.Assignment?
    decreases e, 0, 0
  {
    var here := Here(c, e.target.Where());
    TargetErrors(here, e.target)
    + CaptureErrors(here, e.target)
    + ExpressionErrors(c, e.value)
    + CheckContractErrors(c, e.value, TargetContract(c, e.target))
  }

  // ----- type declarations -----

  predicate IsReserved(name: string) {
    FromName(name).Some? || name == "array" || name == "object" || name == "function" || name == "null" || name == "connection"
  }

  function AnnotationErrors(c: Context, annotation: TypeAnnotation): Errors {
    When(Resolve(c.types, annotation.name).None?, Report(Here(c, annotation.span), UnknownType, [annotation.name]))
  }

  function OptionalAnnotationErrors(c: Context, annotation: Option<TypeAnnotation>): Errors {
    if annotation.Some? then AnnotationErrors(c, annotation.value) else []
  }

  /** The first `n` fields of a type declaration. */
  function TypeFieldErrors(c: Context, fields: seq<TypeField>, n: nat): Errors
    requires n <= |fields|
  {
    if n == 0 then []
    else
      TypeFieldErrors(c, fields, n - 1)
      + When(exists i | 0 <= i < n - 1 :: fields[i].name == fields[n - 1].name,
             Report(c, DuplicateDeclaration, [fields[n - 1].name]))
      + AnnotationErrors(c, fields[n - 1].annotation)
  }

  ghost predicate CyclicName(types: seq<TypeDef>, name: string) {
    var t := Resolve(types, name);
    t.Some? && t.value.Named? && Reaches(types, t.value.id, t.value.id)
  }

  /** Errors about where a type is declared and under which name. */
  function DeclarationErrors(c: Context, name: string): Errors {
    When(|c.scopes| != 2 || c.functionDepth != 0, Report(c, InvalidTypeDeclaration, []))
    + When(IsReserved(name), Report(c, InvalidTypeDeclaration, [name]))
    + When(name in c.declared, Report(c, DuplicateDeclaration, [name]))
  }

  ghost function TypeDeclErrors(c: Context, name: string, fields: seq<TypeField>): Errors {
    DeclarationErrors(c, name)
    + TypeFieldErrors(c, fields, |fields|)
    + When(CyclicName(c.types, name), Report(c, InvalidTypeDeclaration, [name, name]))
  }

  // ----- statements -----

  function ParameterTypes(types: seq<TypeDef>, parameters: seq<Parameter>): (resolved: seq<Option<ResolvedType>>)
    ensures |resolved| == |parameters|
    ensures forall i | 0 <= i < |parameters| :: resolved[i] == ResolveAnnotation(types, parameters[i].annotation)
  {
    seq(|parameters|, i requires 0 <= i < |parameters| => ResolveAnnotation(types, parameters[i].annotation))
  }

  function SymbolOfFunction(types: seq<TypeDef>, s: Stmt): Symbol
    requires s.Function?
  {
    FunctionSymbol(|s.parameters|, ParameterTypes(types, s.parameters), ResolveAnnotation(types, s.result))
  }

  /** The context once the functions among the first `n` statements are declared. */
  function Hoist(c: Context, stmts: seq<Stmt>, n: nat): Context
    requires n <= |stmts|
  {
    if n == 0 then c
    else
      var front := Hoist(c, stmts, n - 1);
      var s := stmts[n - 1].Unspanned();
      if s.Function? then Declare(front, s.name, SymbolOfFunction(c.types, s)) else front
  }

  function ParameterAnnotationErrors(c: Context, parameters: seq<Parameter>, n: nat): Errors
    requires n <= |parameters|
  {
    if n == 0 then []
    else ParameterAnnotationErrors(c, parameters, n - 1) + OptionalAnnotationErrors(c, parameters[n - 1].annotation)
  }

  /** What hoisting one function reports. */
  function FunctionHoistErrors(c: Context, s: Stmt): Errors
    requires s.Function?
  {
    ParameterAnnotationErrors(c, s.parameters, |s.parameters|) + OptionalAnnotationErrors(c, s.result) + DeclareErrors(c, s.name)
  }

  function HoistErrors(c: Context, stmts: seq<Stmt>, n: nat): Errors
    requires n <= |stmts|
  {
    if n == 0 then []
    else
      var s := stmts[n - 1].Unspanned();
      var here := Here(Hoist(c, stmts, n - 1), stmts[n - 1].Where());
      HoistErrors(c, stmts, n - 1) + (if s.Function? then FunctionHoistErrors(here, s) else [])
  }

  /** Every type name declared anywhere inside a statement. */
  function TypeNames(s: Stmt): set<string>
    decreases s, 1, 0
  {
    match s
    case TypeDecl(name, _) => {name}
    case LocatedStmt(_, inner) => TypeNames(inner)
    case Block(statements) => BlockTypeNames(s, |statements|)
    case Parallel(_, _, body) => TypeNames(body)
    case Match(_, arms) => ArmTypeNames(s, |arms|)
    case If(_, thenBranch, elseBranch) =>
      TypeNames(thenBranch) + (if elseBranch.Some? then TypeNames(elseBranch.value) else {})
    case While(_, body) => TypeNames(body)
    case For(_, _, body) => TypeNames(body)
    case Function(_, _, _, body) => TypeNames(body)
    case _ => {}
  }

  function BlockTypeNames(s: Stmt, n: nat): set<string>
    requires s.Block? && n <= |s.statements|
    decreases s, 0, n
  {
    if n == 0 then {} else BlockTypeNames(s, n - 1) + TypeNames(s.statements[n - 1])
  }

  function ArmTypeNames(s: Stmt, n: nat): set<string>
    requires s.Match? && n <= |s.arms|
    decreases s, 0, n
  {
    if n == 0 then {} else ArmTypeNames(s, n - 1) + TypeNames(s.arms[n - 1].body)
  }

  function WithTypes(c: Context, names: set<string>): Context {
    c.(declared := c.declared + names)
  }

  /** What a statement leaves behind for the statements after it. */
  function AfterStatement(c: Context, s: Stmt): Context {
    var bare := s.Unspanned();
    var next := WithTypes(c, TypeNames(s));
    if bare.Let? then Declare(next, bare.name, VariableSymbol(ResolveAnnotation(c.types, bare.annotation))) else next
  }

  /** The context before statement `n` of a hoisted list. */
  function ContextAt(c: Context, stmts: seq<Stmt>, n: nat): Context
    requires n <= |stmts|
  {
    if n == 0 then c else AfterStatement(ContextAt(c, stmts, n - 1), stmts[n - 1])
  }

  function DeclareParameters(c: Context, parameters: seq<Parameter>, n: nat): Context
    requires n <= |parameters|
  {
    if n == 0 then c
    else
      Declare(DeclareParameters(c, parameters, n - 1), parameters[n - 1].name,
              ParameterSymbol(ResolveAnnotation(c.types, parameters[n - 1].annotation)))
  }

  function ParameterErrors(c: Context, parameters: seq<Parameter>, n: nat): Errors
    requires n <= |parameters|
  {
    if n == 0 then []
    else
      ParameterErrors(c, parameters, n - 1)
      + DeclareErrors(DeclareParameters(c, parameters, n - 1), parameters[n - 1].name)
  }

  /** A function sees the scopes around it but none of the loops. */
  function FunctionContext(c: Context, s: Stmt): Context
    requires s.Function?
  {
    EnterScope(c).(loops := [], functionDepth := c.functionDepth + 1, result := ResolveAnnotation(c.types, s.result))
  }

  function InsideFunction(c: Context, s: Stmt): Context
    requires s.Function?
  {
    DeclareParameters(FunctionContext(c, s), s.parameters, |s.parameters|)
  }

  function LoopContext(c: Context, kind: LoopKind): Context {
    EnterScope(c).(loops := c.loops + [kind])
  }

  /** The scope of a `for` or `parallel` body holds the loop variable. */
  function IterationContext(c: Context, s: Stmt): Context
    requires s.For? || s.Parallel?
  {
    var inside := Declare(LoopContext(c, if s.For? then SerialLoop else ParallelLoop), s.variable, LoopSymbol);
    if s.For? then inside
    else inside.(boundaries := c.boundaries + [Boundary(|c.scopes|, c.functionDepth)])
  }

  predicate ReturnsFromWorker(c: Context) {
    c.boundaries != [] && c.boundaries[|c.boundaries| - 1].functions == c.functionDepth
  }

  function BreakErrors(c: Context): Errors {
    if c.loops == [] then Report(c, BreakOutsideLoop, [])
    else if c.loops[|c.loops| - 1].ParallelLoop? then Report(c, BreakAcrossParallel, [])
    else []
  }

  function ReturnErrors(c: Context, returned: Option<Expr>): Errors {
    (if ReturnsFromWorker(c) then Report(c, ReturnAcrossParallel, [])
     else When(c.functionDepth == 0, Report(c, ReturnOutsideFunction, [])))
    + (if returned.Some? then ExpressionErrors(c, returned.value) else [])
    + CheckContractErrors(c, if returned.Some? then returned.value else NullLit, c.result)
  }

  function LetErrors(c: Context, s: Stmt): Errors
    requires s.Let?
  {
    ExpressionErrors(c, s.value)
    + OptionalAnnotationErrors(c, s.annotation)
    + CheckContractErrors(c, s.value, ResolveAnnotation(c.types, s.annotation))
    + DeclareErrors(c, s.name)
  }

  ghost function StatementErrors(c: Context, s: Stmt): Errors
    decreases s, 1, 0
  {
    match s
    case TypeDecl(name, fields) => TypeDeclErrors(c, name, fields)
    case Break => BreakErrors(c)
    case Continue => When(c.loops == [], Report(c, ContinueOutsideLoop, []))
    case LocatedStmt(span, inner) => StatementErrors(c.(span := Some(span)), inner)
    case Let(_, _, _) => LetErrors(c, s)
    case ExprStmt(e) => ExpressionErrors(c, e)
    case Block(_) => BodyErrors(EnterScope(c), s)
    case Function(_, parameters, _, body) =>
      ParameterErrors(FunctionContext(c, s), parameters, |parameters|) + BodyErrors(InsideFunction(c, s), body)
    case Return(returned) => ReturnErrors(c, returned)
    case If(condition, thenBranch, elseBranch) =>
      ExpressionErrors(c, condition)
      + BodyErrors(EnterScope(c), thenBranch)
      + (if elseBranch.Some? then BodyErrors(EnterScope(WithTypes(c, TypeNames(thenBranch))), elseBranch.value) else [])
    case While(condition, body) => ExpressionErrors(c, condition) + BodyErrors(LoopContext(c, SerialLoop), body)
    case For(_, iterable, body) => ExpressionErrors(c, iterable) + BodyErrors(IterationContext(c, s), body)
    case Parallel(_, iterable, body) => ExpressionErrors(c, iterable) + BodyErrors(IterationContext(c, s), body)
    case Match(subject, arms) => ExpressionErrors(c, subject) + ArmErrors(c, s, |arms|)
  }

  ghost function ArmErrors(c: Context, s: Stmt, n: nat): Errors
    requires s.Match? && n <= |s.arms|
    decreases s, 0, n
  {
    if n == 0 then []
    else
      ArmErrors(c, s, n - 1)
      + BodyErrors(EnterScope(WithTypes(c, ArmTypeNames(s, n - 1))), s.arms[n - 1].body)
  }

  /** The statements of a body, in the scope the context already has. */
  ghost function BodyErrors(c: Context, body: Stmt): Errors
    decreases body, if body.Block? then 0 else 2, |Contents(body)| + 1
  {
    if body.LocatedStmt? then BodyErrors(c.(span := Some(body.span)), body.inner)
    else
      HoistErrors(c, Contents(body), |Contents(body)|)
      + SequenceErrors(Hoist(c, Contents(body), |Contents(body)|), body, |Contents(body)|)
  }

  /** The first `n` statements of a body, from the hoisted context. */
  ghost function SequenceErrors(c: Context, body: Stmt, n: nat): Errors
    requires n <= |Contents(body)|
    decreases body, if body.Block? then 0 else 2, n
  {
    if n == 0 then []
    else
      SequenceErrors(c, body, n - 1)
      + StatementErrors(ContextAt(c, Contents(body), n - 1), Contents(body)[n - 1])
  }

  // ----- programs -----

  function BuiltinScope(): map<string, Symbol> {
    var one := FunctionSymbol(1, [], None);
    map[
      "print" := BuiltinSymbol, "bytes" := one, "encode_utf8" := one, "decode_utf8" := one, "byte_len" := one,
      "close" := one, "set_timeout" := FunctionSymbol(2, [], None), "accept" := one, "local_address" := one]
  }

  function TopContext(types: seq<TypeDef>): Context {
    Context(types, {}, None, [], None, [BuiltinScope(), map[]], 0, [])
  }

  ghost function Analyze(statements: seq<Stmt>): Errors {
    BodyErrors(TopContext(Definitions(statements)), Block(statements))
  }
}
