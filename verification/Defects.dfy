/**
 * The defects of a program, by its syntax and by what surrounds each place: the
 * layers from the built-ins inwards, each a scope with its names.
 */
module Defects {
  import opened Wrappers
  import opened Source
  import opened Ast
  import opened Types
  import opened Analysis

  datatype LayerKind = PlainLayer | LoopLayer | WorkerLayer | FunctionLayer(result: Option<ResolvedType>)

  datatype Layer = Layer(kind: LayerKind, names: map<string, Symbol>)

  /** A place in a program: the record types, the type names declared before it, the layers around it, and its location. */
  datatype Site = Site(types: seq<TypeDef>, declared: set<string>, layers: seq<Layer>, at: Option<Span>)

  // ----- surroundings -----

  /** The name is declared at this layer and at none further in. */
  predicate Visible(g: Site, name: string, k: nat) {
    k < |g.layers| && name in g.layers[k].names && forall j | k < j < |g.layers| :: name !in g.layers[j].names
  }

  predicate Seen(g: Site, name: string) {
    exists k | 0 <= k < |g.layers| :: name in g.layers[k].names
  }

  /** Somewhere between layer `k` and here there is a layer of a function. */
  predicate FunctionInside(g: Site, k: int) {
    exists j | k < j < |g.layers| && 0 <= j :: g.layers[j].kind.FunctionLayer?
  }

  predicate WorkerInside(g: Site, k: int) {
    exists j | k < j < |g.layers| && 0 <= j :: g.layers[j].kind.WorkerLayer?
  }

  /** A loop, serial or parallel, of the same function. */
  predicate InLoop(g: Site) {
    exists k | 0 <= k < |g.layers| :: (g.layers[k].kind.LoopLayer? || g.layers[k].kind.WorkerLayer?) && !FunctionInside(g, k)
  }

  /** The innermost loop of the same function is a `parallel`. */
  predicate InParallelTurn(g: Site) {
    exists k | 0 <= k < |g.layers| :: g.layers[k].kind.WorkerLayer? && forall j | k < j < |g.layers| :: g.layers[j].kind.PlainLayer?
  }

  /** A `parallel` of the same function, however many loops further out. */
  predicate InWorker(g: Site) {
    exists k | 0 <= k < |g.layers| :: g.layers[k].kind.WorkerLayer? && !FunctionInside(g, k)
  }

  predicate InFunction(g: Site) {
    FunctionInside(g, -1)
  }

  /** The contract of the innermost function. */
  function ReturnContract(layers: seq<Layer>): Option<ResolvedType> {
    if layers == [] then None
    else if layers[|layers| - 1].kind.FunctionLayer? then layers[|layers| - 1].kind.result
    else ReturnContract(layers[..|layers| - 1])
  }

  /** The same place, at the location of a part of it that has one. */
  function At(g: Site, span: Option<Span>): Site {
    g.(at := span.Or(g.at))
  }

  /** Inside a new layer. */
  function Enter(g: Site, kind: LayerKind): Site {
    g.(layers := g.layers + [Layer(kind, map[])])
  }

  /** The first declaration of a name in a layer counts. */
  function With(g: Site, name: string, symbol: Symbol): Site {
    if Taken(g, name) then g
    else
      var last := g.layers[|g.layers| - 1];
      var names: map<string, Symbol> := last.names[name := symbol];
      g.(layers := g.layers[|g.layers| - 1 := last.(names := names)])
  }

  /** The innermost layer has the name already. */
  predicate Taken(g: Site, name: string) {
    g.layers == [] || name in g.layers[|g.layers| - 1].names
  }

  // ----- static types -----

  /** What is known of a symbol's value. */
  predicate SymbolTyped(g: Site, symbol: Symbol, t: string) {
    match symbol
    case FunctionSymbol(_, _, _) => t == "function"
    case BuiltinSymbol => t == "function"
    case LoopSymbol => false
    case VariableSymbol(annotation) => Names(g, annotation, t)
    case ParameterSymbol(annotation) => Names(g, annotation, t)
  }

  /** The annotation resolves to a type of this name. */
  predicate Names(g: Site, annotation: Option<ResolvedType>, t: string) {
    annotation.Some? && InRange(g.types, annotation.value) && t == TypeName(g.types, annotation.value)
  }

  /** `owner` is a record type with this field. */
  predicate FieldTyped(g: Site, owner: string, name: string, t: string) {
    && IsRecord(g, owner)
    && var field := FindField(g.types[RecordId(g, owner)].fields, name);
       field.Some? && t == field.value.annotation.name
  }

  predicate IsRecord(g: Site, name: string) {
    Resolve(g.types, name).Some? && Resolve(g.types, name).value.Named?
  }

  function RecordId(g: Site, name: string): (id: nat)
    requires IsRecord(g, name)
    ensures id < |g.types|
  {
    Resolve(g.types, name).value.id
  }

  /** Arithmetic on known types: strings take everything, a float makes a float. */
  predicate Combines(op: BinaryOp, l: string, r: string, t: string) {
    || (op.Add? && (l == "string" || r == "string") && t == "string")
    || (op.Add? && l == r == t == "bytes")
    || ((op.Add? || op.Subtract?) && l == r == t == "duration")
    || (l == r == t == "int")
    || (l in {"int", "float"} && r in {"int", "float"} && "float" in {l, r} && t == "float")
  }

  /** Whenever the expression has a value, its type has this name. */
  ghost predicate Typed(g: Site, e: Expr, t: string)
    decreases e
  {
    match e
    case Located(_, inner) => Typed(g, inner, t)
    case Identifier(name) => exists k: nat :: Visible(g, name, k) && SymbolTyped(g, g.layers[k].names[name], t)
    case Property(owner, name) => exists o :: Typed(g, owner, o) && FieldTyped(g, o, name, t)
    case Index(owner, index) =>
      index.Unspanned().StringLit? && exists o :: Typed(g, owner, o) && FieldTyped(g, o, index.Unspanned().text, t)
    case Construct(name, _) => Resolve(g.types, name).Some? && t == TypeName(g.types, Resolve(g.types, name).value)
    case IntegerLit(_) => t == "int"
    case FloatLit(_) => t == "float"
    case BooleanLit(_) => t == "bool"
    case StringLit(_) => t == "string"
    case DurationLit(_) => t == "duration"
    case NullLit => t == "null"
    case ArrayLit(_) => t == "array"
    case ObjectLit(_) => t == "object"
    case Assignment(_, value) => Typed(g, value, t)
    case Call(callee, _) =>
      && callee.Unspanned().Identifier?
      && exists k: nat ::
           && Visible(g, callee.Unspanned().name, k)
           && var symbol := g.layers[k].names[callee.Unspanned().name];
              symbol.FunctionSymbol? && Names(g, symbol.result, t)
    case Unary(op, operand) => if op == Not then t == "bool" else t in {"int", "float"} && Typed(g, operand, t)
    case Binary(left, op, right) =>
      if op in {And, Or, Equal, NotEqual, Less, LessEqual, Greater, GreaterEqual} then t == "bool"
      else exists l, r :: Typed(g, left, l) && Typed(g, right, r) && Combines(op, l, r, t)
    case Effect(_, _) => false
  }

  /** The expression is known not to be of the expected type. */
  ghost predicate Clash(g: Site, e: Expr, expected: Option<ResolvedType>, x: SemanticError) {
    && expected.Some? && InRange(g.types, expected.value)
    && exists t :: Typed(g, e, t) && t != TypeName(g.types, expected.value) && x == SemanticError(TypeMismatch, [TypeName(g.types, expected.value), t], At(g, e.Where()).at)
  }

  /** The owner is known to be a record without this field. */
  ghost predicate NoMember(g: Site, owner: Expr, name: string, x: SemanticError) {
    exists t :: Typed(g, owner, t) && IsRecord(g, t) && FindField(g.types[RecordId(g, t)].fields, name).None?
                && x == SemanticError(TypeMismatch, [t, name], g.at)
  }

  // ----- defects of expressions -----

  /** Repeated, undeclared or mistyped fields of a constructor. */
  ghost predicate FieldDefect(g: Site, name: string, fields: seq<Field>, i: nat, x: SemanticError)
    requires i < |fields|
  {
    var key := fields[i].key;
    || (x == SemanticError(InvalidConstructor, [key], g.at) && exists j | 0 <= j < i :: fields[j].key == key)
    || (IsRecord(g, name)
        && var declared := g.types[RecordId(g, name)].fields;
           if FindField(declared, key).None? then x == SemanticError(InvalidConstructor, [name, key], g.at)
           else Clash(g, fields[i].value, FieldType(g.types, declared, key), x))
  }

  /** A declared field that the constructor does not mention. */
  predicate FieldMissing(g: Site, name: string, fields: seq<Field>, x: SemanticError) {
    && IsRecord(g, name)
    && exists j | 0 <= j < |g.types[RecordId(g, name)].fields| ::
         var key := g.types[RecordId(g, name)].fields[j].name;
         x == SemanticError(InvalidConstructor, [key], g.at) && forall i | 0 <= i < |fields| :: fields[i].key != key
  }

  /** The contract an assignment target is held to. */
  ghost predicate Contracted(g: Site, target: Expr, t: ResolvedType) {
    var bare := target.Unspanned();
    if bare.Property? || bare.Index? then exists name :: Typed(g, target, name) && Resolve(g.types, name) == Some(t)
    else bare.Identifier? && exists k: nat :: Visible(g, bare.name, k) && g.layers[k].names[bare.name].Contract() == Some(t)
  }

  /** The root of the target is a mutable name declared outside a worker that is around here. */
  ghost predicate Captured(g: Site, target: Expr, x: SemanticError) {
    && RootOf(target).Some?
    && exists k: nat ::
         && Visible(g, RootOf(target).value, k) && g.layers[k].names[RootOf(target).value].IsMutable()
         && WorkerInside(g, k) && x == SemanticError(CapturedAssignment, [RootOf(target).value], g.at)
  }

  ghost predicate TargetDefect(g: Site, target: Expr, x: SemanticError)
    decreases target, 1
  {
    var bare := target.Unspanned();
    if bare.Identifier? then
      || (x == SemanticError(UndefinedSymbol, [bare.name], g.at) && !Seen(g, bare.name))
      || (x == SemanticError(ImmutableAssignment, [bare.name], g.at)
          && exists k: nat :: Visible(g, bare.name, k) && !g.layers[k].names[bare.name].IsMutable())
    else ExprDefect(g, target, x) || (!bare.Property? && !bare.Index? && x == SemanticError(InvalidAssignmentTarget, [], g.at))
  }

  /** A call, by name, of a function with another number of parameters, or with a mistyped argument. */
  ghost predicate CallDefect(g: Site, callee: Expr, arguments: seq<Expr>, x: SemanticError) {
    && callee.Unspanned().Identifier?
    && var name := callee.Unspanned().name;
       exists k: nat ::
         && Visible(g, name, k) && g.layers[k].names[name].FunctionSymbol?
         && var symbol := g.layers[k].names[name];
            || (|arguments| != symbol.arity && x == SemanticError(WrongArgumentCount, [name], g.at))
            || exists i | 0 <= i < |arguments| && i < |symbol.parameters| :: Clash(g, arguments[i], symbol.parameters[i], x)
  }

  ghost predicate ExprDefect(g: Site, e: Expr, x: SemanticError)
    decreases e, 0
  {
    match e
    case Located(span, inner) => ExprDefect(At(g, Some(span)), inner, x)
    case Identifier(name) => x == SemanticError(UndefinedSymbol, [name], g.at) && !Seen(g, name)
    case Construct(name, fields) =>
      || (x == SemanticError(InvalidConstructor, [name], g.at) && !IsRecord(g, name))
      || (exists i | 0 <= i < |fields| :: ExprDefect(g, fields[i].value, x))
      || (exists i | 0 <= i < |fields| :: FieldDefect(g, name, fields, i, x))
      || FieldMissing(g, name, fields, x)
    case Assignment(target, value) =>
      || TargetDefect(At(g, target.Where()), target, x)
      || Captured(At(g, target.Where()), target, x)
      || ExprDefect(g, value, x)
      || exists t :: Contracted(g, target, t) && Clash(g, value, Some(t), x)
    case Call(callee, arguments) =>
      || ExprDefect(g, callee, x)
      || (exists i | 0 <= i < |arguments| :: ExprDefect(g, arguments[i], x))
      || CallDefect(g, callee, arguments, x)
    case Binary(left, _, right) => ExprDefect(g, left, x) || ExprDefect(g, right, x)
    case Property(owner, name) => ExprDefect(g, owner, x) || NoMember(g, owner, name, x)
    case Index(owner, index) =>
      || ExprDefect(g, owner, x)
      || ExprDefect(g, index, x)
      || (index.Unspanned().StringLit? && NoMember(g, owner, index.Unspanned().text, x))
    case _ => exists i | 0 <= i < |Operands(e)| :: ExprDefect(g, Operands(e)[i], x)
  }

  // ----- defects of statements -----

  /** The name resolves to no type. */
  predicate UnknownAnnotation(g: Site, annotation: Option<TypeAnnotation>, x: SemanticError) {
    annotation.Some? && Resolve(g.types, annotation.value.name).None? && x == SemanticError(UnknownType, [annotation.value.name], At(g, annotation.value.span).at)
  }

  predicate Reserved(name: string) {
    name in {"int", "float", "bool", "string", "duration", "bytes", "array", "object", "function", "null", "connection"}
  }

  ghost predicate TypeDefect(g: Site, name: string, fields: seq<TypeField>, x: SemanticError) {
    || (x == SemanticError(InvalidTypeDeclaration, [], g.at) && (|g.layers| != 2 || InFunction(g)))
    || (x == SemanticError(InvalidTypeDeclaration, [name], g.at) && Reserved(name))
    || (x == SemanticError(DuplicateDeclaration, [name], g.at) && name in g.declared)
    || (exists i | 0 <= i < |fields| ::
          || (x == SemanticError(DuplicateDeclaration, [fields[i].name], g.at) && exists j | 0 <= j < i :: fields[j].name == fields[i].name)
          || UnknownAnnotation(g, Some(fields[i].annotation), x))
    || (x == SemanticError(InvalidTypeDeclaration, [name, name], g.at) && IsRecord(g, name) && Reaches(g.types, RecordId(g, name), RecordId(g, name)))
  }

  /** What a list knows of its functions before it runs: their annotations, and names that are taken. */
  ghost predicate HoistDefect(g: Site, stmts: seq<Stmt>, i: nat, x: SemanticError)
    requires i < |stmts|
  {
    var s, h := stmts[i].Unspanned(), At(Hoisted(g, stmts, i), stmts[i].Where());
    s.Function? && SignatureDefect(h, s, x)
  }

  ghost predicate SignatureDefect(g: Site, s: Stmt, x: SemanticError)
    requires s.Function?
  {
    || (exists j | 0 <= j < |s.parameters| :: UnknownAnnotation(g, s.parameters[j].annotation, x))
    || UnknownAnnotation(g, s.result, x)
    || (x == SemanticError(DuplicateDeclaration, [s.name], g.at) && g.layers != [] && Taken(g, s.name))
  }

  /** The names of the functions among the first `n` statements are known in the whole list. */
  function Hoisted(g: Site, stmts: seq<Stmt>, n: nat): Site
    requires n <= |stmts|
  {
    if n == 0 then g
    else
      var s, front := stmts[n - 1].Unspanned(), Hoisted(g, stmts, n - 1);
      if s.Function? then With(front, s.name, FunctionOf(g, s)) else front
  }

  function FunctionOf(g: Site, s: Stmt): Symbol
    requires s.Function?
  {
    FunctionSymbol(|s.parameters|, ParameterTypes(g.types, s.parameters), ResolveAnnotation(g.types, s.result))
  }

  /** Before statement `n`: every `let` before it is known, and every type name in the statements before it. */
  function Before(g: Site, stmts: seq<Stmt>, n: nat): Site
    requires n <= |stmts|
  {
    if n == 0 then g
    else
      var front, s := Before(g, stmts, n - 1), stmts[n - 1].Unspanned();
      var next := front.(declared := front.declared + TypeNames(stmts[n - 1]));
      if s.Let? then With(next, s.name, VariableSymbol(ResolveAnnotation(g.types, s.annotation))) else next
  }

  /** Inside a function: a layer of its own with its parameters. */
  function Parameters(g: Site, parameters: seq<Parameter>, n: nat): Site
    requires n <= |parameters|
  {
    if n == 0 then g
    else
      With(Parameters(g, parameters, n - 1), parameters[n - 1].name, ParameterSymbol(ResolveAnnotation(g.types, parameters[n - 1].annotation)))
  }

  function InsideOf(g: Site, s: Stmt): Site
    requires s.Function?
  {
    Parameters(Enter(g, FunctionLayer(ResolveAnnotation(g.types, s.result))), s.parameters, |s.parameters|)
  }

  /** Inside the turns of a loop over items. */
  function TurnOf(g: Site, s: Stmt): Site
    requires s.For? || s.Parallel?
  {
    With(Enter(g, if s.For? then LoopLayer else WorkerLayer), s.variable, LoopSymbol)
  }

  ghost predicate ReturnDefect(g: Site, returned: Option<Expr>, x: SemanticError) {
    || (x == SemanticError(ReturnAcrossParallel, [], g.at) && InWorker(g))
    || (x == SemanticError(ReturnOutsideFunction, [], g.at) && !InWorker(g) && !InFunction(g))
    || (returned.Some? && ExprDefect(g, returned.value, x))
    || Clash(g, if returned.Some? then returned.value else NullLit, ReturnContract(g.layers), x)
  }

  ghost predicate StmtDefect(g: Site, s: Stmt, x: SemanticError)
    decreases s, 1
  {
    match s
    case LocatedStmt(span, inner) => StmtDefect(At(g, Some(span)), inner, x)
    case TypeDecl(name, fields) => TypeDefect(g, name, fields, x)
    case Break =>
      || (x == SemanticError(BreakOutsideLoop, [], g.at) && !InLoop(g))
      || (x == SemanticError(BreakAcrossParallel, [], g.at) && InParallelTurn(g))
    case Continue => x == SemanticError(ContinueOutsideLoop, [], g.at) && !InLoop(g)
    case Let(name, annotation, value) =>
      || ExprDefect(g, value, x)
      || UnknownAnnotation(g, annotation, x)
      || Clash(g, value, ResolveAnnotation(g.types, annotation), x)
      || (x == SemanticError(DuplicateDeclaration, [name], g.at) && g.layers != [] && Taken(g, name))
    case ExprStmt(e) => ExprDefect(g, e, x)
    case Return(returned) => ReturnDefect(g, returned, x)
    case Block(_) => BodyDefect(Enter(g, PlainLayer), s, x)
    case Function(_, parameters, _, body) =>
      || (exists i | 0 <= i < |parameters| ::
            x == SemanticError(DuplicateDeclaration, [parameters[i].name], g.at) && exists j | 0 <= j < i :: parameters[j].name == parameters[i].name)
      || BodyDefect(InsideOf(g, s), body, x)
    case If(condition, thenBranch, elseBranch) =>
      || ExprDefect(g, condition, x)
      || BodyDefect(Enter(g, PlainLayer), thenBranch, x)
      || (elseBranch.Some? && BodyDefect(Enter(g.(declared := g.declared + TypeNames(thenBranch)), PlainLayer), elseBranch.value, x))
    case While(condition, body) => ExprDefect(g, condition, x) || BodyDefect(Enter(g, LoopLayer), body, x)
    case For(_, iterable, body) => ExprDefect(g, iterable, x) || BodyDefect(TurnOf(g, s), body, x)
    case Parallel(_, iterable, body) => ExprDefect(g, iterable, x) || BodyDefect(TurnOf(g, s), body, x)
    case Match(subject, arms) =>
      || ExprDefect(g, subject, x)
      || exists i | 0 <= i < |arms| ::
           BodyDefect(Enter(g.(declared := g.declared + ArmTypeNames(s, i)), PlainLayer), arms[i].body, x)
  }

  /** A body, in the layer it has been given. */
  ghost predicate BodyDefect(g: Site, body: Stmt, x: SemanticError)
    decreases body, if body.Block? then 0 else 2
  {
    if body.LocatedStmt? then BodyDefect(At(g, Some(body.span)), body.inner, x)
    else
      var stmts := Contents(body);
      || (exists i | 0 <= i < |stmts| :: HoistDefect(g, stmts, i, x))
      || (exists i | 0 <= i < |stmts| :: StmtDefect(Before(Hoisted(g, stmts, |stmts|), stmts, i), stmts[i], x))
  }

  /** The layers every program starts in. */
  function TopSite(types: seq<TypeDef>): Site {
    Site(types, {}, [Layer(PlainLayer, BuiltinScope()), Layer(PlainLayer, map[])], None)
  }

  ghost predicate ProgramDefect(statements: seq<Stmt>, x: SemanticError) {
    BodyDefect(TopSite(Definitions(statements)), Block(statements), x)
  }
}
