/** What the analyzer knows of names, of types, and of the loops and functions around a place. */
module Diagnoses {
  import opened Wrappers
  import opened Ast
  import opened Types
  import opened Analysis
  import opened Defects

  // ----- reports -----

  predicate Reports(errors: Errors, x: SemanticError) {
    x in errors
  }

  lemma ReportsBoth(a: Errors, b: Errors, x: SemanticError)
    ensures Reports(a + b, x) <==> Reports(a, x) || Reports(b, x)
  {
  }

  lemma ReportsThis(c: Context, kind: ErrorKind, about: seq<string>, condition: bool, x: SemanticError)
    ensures Reports(Report(c, kind, about), x) <==> x == SemanticError(kind, about, c.span)
    ensures Reports(When(condition, Report(c, kind, about)), x) <==> condition && x == SemanticError(kind, about, c.span)
    ensures !Reports([], x)
  {
  }

  // ----- the context of a site -----

  function LoopsOf(layers: seq<Layer>): seq<LoopKind> {
    if layers == [] then []
    else
      var front := layers[..|layers| - 1];
      match layers[|layers| - 1].kind
      case PlainLayer => LoopsOf(front)
      case LoopLayer => LoopsOf(front) + [SerialLoop]
      case WorkerLayer => LoopsOf(front) + [ParallelLoop]
      case FunctionLayer(_) => []
  }

  function FunctionsIn(layers: seq<Layer>): nat {
    if layers == [] then 0
    else FunctionsIn(layers[..|layers| - 1]) + (if layers[|layers| - 1].kind.FunctionLayer? then 1 else 0)
  }

  function BoundariesOf(layers: seq<Layer>): seq<Boundary> {
    if layers == [] then []
    else
      var front := layers[..|layers| - 1];
      BoundariesOf(front) + (if layers[|layers| - 1].kind.WorkerLayer? then [Boundary(|front|, FunctionsIn(front))] else [])
  }

  predicate SameScopes(scopes: Scopes, layers: seq<Layer>) {
    |scopes| == |layers| && forall i | 0 <= i < |layers| :: scopes[i] == layers[i].names
  }

  /** The analyzer's context says what the layers around the site say. */
  predicate Matches(c: Context, g: Site) {
    && c.types == g.types && c.declared == g.declared && c.span == g.at && SameScopes(c.scopes, g.layers)
    && c.loops == LoopsOf(g.layers) && c.functionDepth == FunctionsIn(g.layers)
    && c.boundaries == BoundariesOf(g.layers) && c.result == ReturnContract(g.layers)
  }

  // ----- loops, functions and workers around a site -----

  /** The layers without the innermost one. */
  function Outer(g: Site): Site
    requires g.layers != []
  {
    g.(layers := g.layers[..|g.layers| - 1])
  }

  lemma FunctionInsideOuter(g: Site, k: int)
    requires g.layers != [] && k < |g.layers| - 1
    ensures FunctionInside(g, k) <==> g.layers[|g.layers| - 1].kind.FunctionLayer? || FunctionInside(Outer(g), k)
    ensures WorkerInside(g, k) <==> g.layers[|g.layers| - 1].kind.WorkerLayer? || WorkerInside(Outer(g), k)
  {
    var last := |g.layers| - 1;
    if FunctionInside(Outer(g), k) {
      var j :| k < j < last && 0 <= j && Outer(g).layers[j].kind.FunctionLayer?;
      assert g.layers[j].kind.FunctionLayer?;
    }
    if WorkerInside(Outer(g), k) {
      var j :| k < j < last && 0 <= j && Outer(g).layers[j].kind.WorkerLayer?;
      assert g.layers[j].kind.WorkerLayer?;
    }
    if FunctionInside(g, k) {
      var j :| k < j < |g.layers| && 0 <= j && g.layers[j].kind.FunctionLayer?;
      assert j < last ==> Outer(g).layers[j].kind.FunctionLayer?;
    }
    if WorkerInside(g, k) {
      var j :| k < j < |g.layers| && 0 <= j && g.layers[j].kind.WorkerLayer?;
      assert j < last ==> Outer(g).layers[j].kind.WorkerLayer?;
    }
  }

  lemma {:induction false} FunctionsCount(g: Site)
    ensures InFunction(g) <==> FunctionsIn(g.layers) > 0
    decreases |g.layers|
  {
    if g.layers != [] {
      FunctionsCount(Outer(g));
      FunctionInsideOuter(g, -1);
    }
  }

  lemma {:induction false} LoopsInside(g: Site)
    ensures InLoop(g) <==> LoopsOf(g.layers) != []
    decreases |g.layers|
  {
    if g.layers == [] { return; }
    var last := |g.layers| - 1;
    LoopsInside(Outer(g));
    if InLoop(Outer(g)) {
      var k :| 0 <= k < last && (Outer(g).layers[k].kind.LoopLayer? || Outer(g).layers[k].kind.WorkerLayer?) && !FunctionInside(Outer(g), k);
      FunctionInsideOuter(g, k);
      assert g.layers[k] == Outer(g).layers[k];
    }
    if InLoop(g) {
      var k :| 0 <= k < |g.layers| && (g.layers[k].kind.LoopLayer? || g.layers[k].kind.WorkerLayer?) && !FunctionInside(g, k);
      if k < last {
        FunctionInsideOuter(g, k);
        assert g.layers[k] == Outer(g).layers[k];
      }
    }
    if g.layers[last].kind.LoopLayer? || g.layers[last].kind.WorkerLayer? {
      assert !FunctionInside(g, last);
    }
  }

  lemma TurnsOuter(g: Site)
    requires g.layers != []
    ensures var kind := g.layers[|g.layers| - 1].kind;
            InParallelTurn(g) <==> kind.WorkerLayer? || (kind.PlainLayer? && InParallelTurn(Outer(g)))
  {
    var last := |g.layers| - 1;
    assert forall j | 0 <= j < last :: Outer(g).layers[j] == g.layers[j];
    if InParallelTurn(Outer(g)) && g.layers[last].kind.PlainLayer? {
      var k :| 0 <= k < last && Outer(g).layers[k].kind.WorkerLayer? && forall j | k < j < last :: Outer(g).layers[j].kind.PlainLayer?;
      assert g.layers[k].kind.WorkerLayer?;
    }
    if InParallelTurn(g) && !g.layers[last].kind.WorkerLayer? {
      var k :| 0 <= k < |g.layers| && g.layers[k].kind.WorkerLayer? && forall j | k < j < |g.layers| :: g.layers[j].kind.PlainLayer?;
      assert Outer(g).layers[k].kind.WorkerLayer?;
    }
  }

  lemma {:induction false} TurnsInside(g: Site)
    ensures var loops := LoopsOf(g.layers); InParallelTurn(g) <==> loops != [] && loops[|loops| - 1] == ParallelLoop
    decreases |g.layers|
  {
    if g.layers != [] {
      TurnsInside(Outer(g));
      TurnsOuter(g);
      hide InParallelTurn;
    }
  }

  lemma {:induction false} BoundaryInside(g: Site)
    ensures var b := BoundariesOf(g.layers);
            && (InWorker(g) <==> b != [] && b[|b| - 1].functions == FunctionsIn(g.layers))
            && (b != [] ==> b[|b| - 1].functions <= FunctionsIn(g.layers))
            && forall k: nat | k < |g.layers| :: WorkerInside(g, k) <==> b != [] && k < b[|b| - 1].depth
    decreases |g.layers|
  {
    if g.layers == [] { return; }
    var last := |g.layers| - 1;
    BoundaryInside(Outer(g));
    InWorkerOuter(g);
    forall k: nat | k < |g.layers|
      ensures WorkerInside(g, k) <==> BoundariesOf(g.layers) != [] && k < BoundariesOf(g.layers)[|BoundariesOf(g.layers)| - 1].depth
    {
      if k < last {
        FunctionInsideOuter(g, k);
      } else {
        DepthsBelow(g.layers);
      }
    }
  }

  lemma InWorkerOuter(g: Site)
    requires g.layers != []
    ensures var kind := g.layers[|g.layers| - 1].kind;
            InWorker(g) <==> kind.WorkerLayer? || (!kind.FunctionLayer? && InWorker(Outer(g)))
  {
    var last := |g.layers| - 1;
    if InWorker(Outer(g)) {
      var k :| 0 <= k < last && Outer(g).layers[k].kind.WorkerLayer? && !FunctionInside(Outer(g), k);
      FunctionInsideOuter(g, k);
      assert g.layers[k] == Outer(g).layers[k];
    }
    if InWorker(g) {
      var k :| 0 <= k < |g.layers| && g.layers[k].kind.WorkerLayer? && !FunctionInside(g, k);
      if k < last {
        FunctionInsideOuter(g, k);
        assert g.layers[k] == Outer(g).layers[k];
      }
    }
    if g.layers[last].kind.WorkerLayer? {
      assert !FunctionInside(g, last);
    }
  }

  lemma {:induction false} DepthsBelow(layers: seq<Layer>)
    ensures forall i | 0 <= i < |BoundariesOf(layers)| :: BoundariesOf(layers)[i].depth < |layers|
  {
    if layers != [] {
      DepthsBelow(layers[..|layers| - 1]);
    }
  }

  // ----- names -----

  lemma {:induction false} FoundIff(scopes: Scopes, g: Site, name: string)
    requires SameScopes(scopes, g.layers)
    ensures LookUpDepth(scopes, name).Some? <==> Seen(g, name)
    ensures LookUpDepth(scopes, name).Some? ==>
              Visible(g, name, LookUpDepth(scopes, name).value.0)
              && LookUpDepth(scopes, name).value.1 == g.layers[LookUpDepth(scopes, name).value.0].names[name]
    decreases |scopes|
  {
    if scopes == [] { return; }
    var last := |scopes| - 1;
    if name in scopes[last] {
      assert name in g.layers[last].names;
    } else {
      FoundIff(scopes[..last], Outer(g), name);
      if Seen(g, name) {
        var k :| 0 <= k < |g.layers| && name in g.layers[k].names;
        assert name in Outer(g).layers[k].names;
      }
      if Seen(Outer(g), name) {
        var k :| 0 <= k < last && name in Outer(g).layers[k].names;
        assert name in g.layers[k].names;
        var d := LookUpDepth(scopes[..last], name).value.0;
        assert Visible(Outer(g), name, d);
        assert forall j | d < j < last :: g.layers[j] == Outer(g).layers[j];
        assert Visible(g, name, d);
      }
    }
  }

  lemma VisibleOnce(g: Site, name: string, j: nat, k: nat)
    requires Visible(g, name, j) && Visible(g, name, k)
    ensures j == k
  {
  }

  /** What is visible is what the analyzer finds. */
  lemma VisibleIff(scopes: Scopes, g: Site, name: string, k: nat)
    requires SameScopes(scopes, g.layers)
    ensures Visible(g, name, k) <==> LookUpDepth(scopes, name).Some? && LookUpDepth(scopes, name).value.0 == k
    ensures Visible(g, name, k) ==> LookUpSymbol(scopes, name) == Some(g.layers[k].names[name])
  {
    FoundIff(scopes, g, name);
    if Visible(g, name, k) {
      assert name in g.layers[k].names;
      VisibleOnce(g, name, k, LookUpDepth(scopes, name).value.0);
    }
  }

  // ----- static types -----

  lemma SymbolTypedIff(g: Site, symbol: Symbol, t: string)
    ensures SymbolTyped(g, symbol, t) <==> KnownSymbol(g.types, Some(symbol)) == Some(t)
  {
  }

  lemma FieldTypedIff(g: Site, scopes: Scopes, owner: Expr, name: string, t: string)
    requires forall o :: Typed(g, owner, o) <==> KnownType(g.types, scopes, owner) == Some(o)
    ensures (exists o :: Typed(g, owner, o) && FieldTyped(g, o, name, t)) <==> KnownField(g.types, scopes, owner, name) == Some(t)
  {
    hide Typed, FindField, KnownType;
    var known := KnownType(g.types, scopes, owner);
    if known.Some? {
      assert Typed(g, owner, known.value);
    }
  }

  lemma CombinesIff(op: BinaryOp, l: string, r: string, t: string)
    requires !IsComparison(op) && !IsLogical(op)
    ensures Combines(op, l, r, t) <==> KnownArithmetic(op, l, r) == Some(t)
  {
  }

  lemma {:induction false} TypedIff(scopes: Scopes, g: Site, e: Expr, t: string)
    requires SameScopes(scopes, g.layers)
    ensures Typed(g, e, t) <==> KnownType(g.types, scopes, e) == Some(t)
    decreases e
  {
    match e
    case Located(_, inner) => TypedIff(scopes, g, inner, t);
    case Identifier(name) => NameTypedIff(scopes, g, name, t);
    case Property(owner, name) =>
      forall o
        ensures Typed(g, owner, o) <==> KnownType(g.types, scopes, owner) == Some(o)
      {
        TypedIff(scopes, g, owner, o);
      }
      FieldTypedIff(g, scopes, owner, name, t);
    case Index(owner, index) =>
      forall o
        ensures Typed(g, owner, o) <==> KnownType(g.types, scopes, owner) == Some(o)
      {
        TypedIff(scopes, g, owner, o);
      }
      if index.Unspanned().StringLit? {
        FieldTypedIff(g, scopes, owner, index.Unspanned().text, t);
      }
    case Assignment(_, value) => TypedIff(scopes, g, value, t);
    case Call(callee, _) => CallTypedIff(scopes, g, e, t);
    case Unary(_, operand) => TypedIff(scopes, g, operand, t);
    case Binary(left, op, right) =>
      forall o
        ensures Typed(g, left, o) <==> KnownType(g.types, scopes, left) == Some(o)
        ensures Typed(g, right, o) <==> KnownType(g.types, scopes, right) == Some(o)
      {
        TypedIff(scopes, g, left, o);
        TypedIff(scopes, g, right, o);
      }
      BinaryTypedIff(scopes, g, e, t);
    case _ =>
  }

  lemma NameTypedIff(scopes: Scopes, g: Site, name: string, t: string)
    requires SameScopes(scopes, g.layers)
    ensures Typed(g, Identifier(name), t) <==> KnownType(g.types, scopes, Identifier(name)) == Some(t)
  {
    hide SymbolTyped, KnownSymbol, LookUpDepth, LookUpSymbol, Visible;
    forall k: nat
      ensures Visible(g, name, k) <==> LookUpDepth(scopes, name).Some? && LookUpDepth(scopes, name).value.0 == k
      ensures Visible(g, name, k) ==> LookUpSymbol(scopes, name) == Some(g.layers[k].names[name])
    {
      VisibleIff(scopes, g, name, k);
      VisibleFacts(g, name, k);
    }
    LookUpFacts(scopes, name);
    if LookUpDepth(scopes, name).Some? {
      var k := LookUpDepth(scopes, name).value.0;
      assert Visible(g, name, k);
      VisibleFacts(g, name, k);
      SymbolTypedIff(g, g.layers[k].names[name], t);
    } else {
      NothingKnown(g.types);
    }
  }

  lemma NothingKnown(types: seq<TypeDef>)
    ensures KnownSymbol(types, None) == None && KnownResult(types, None) == None
  {
  }

  lemma VisibleFacts(g: Site, name: string, k: nat)
    ensures Visible(g, name, k) ==> k < |g.layers| && name in g.layers[k].names
  {
  }

  lemma LookUpFacts(scopes: Scopes, name: string)
    ensures LookUpSymbol(scopes, name) ==
            if LookUpDepth(scopes, name).Some? then Some(LookUpDepth(scopes, name).value.1) else None
  {
  }

  lemma CallTypedIff(scopes: Scopes, g: Site, e: Expr, t: string)
    requires SameScopes(scopes, g.layers) && e.Call?
    ensures Typed(g, e, t) <==> KnownType(g.types, scopes, e) == Some(t)
  {
    hide LookUpDepth, LookUpSymbol, Visible, InRange;
    if !e.callee.Unspanned().Identifier? { return; }
    var name := e.callee.Unspanned().name;
    forall k: nat
      ensures Visible(g, name, k) <==> LookUpDepth(scopes, name).Some? && LookUpDepth(scopes, name).value.0 == k
      ensures Visible(g, name, k) ==> k < |g.layers| && name in g.layers[k].names
      ensures Visible(g, name, k) ==> LookUpSymbol(scopes, name) == Some(g.layers[k].names[name])
    {
      VisibleFacts(g, name, k);
      VisibleIff(scopes, g, name, k);
    }
    LookUpFacts(scopes, name);
    if LookUpDepth(scopes, name).Some? {
      assert Visible(g, name, LookUpDepth(scopes, name).value.0);
    }
  }

  lemma BinaryTypedIff(scopes: Scopes, g: Site, e: Expr, t: string)
    requires e.Binary?
    requires forall o :: Typed(g, e.left, o) <==> KnownType(g.types, scopes, e.left) == Some(o)
    requires forall o :: Typed(g, e.right, o) <==> KnownType(g.types, scopes, e.right) == Some(o)
    ensures Typed(g, e, t) <==> KnownType(g.types, scopes, e) == Some(t)
  {
    var l, r := KnownType(g.types, scopes, e.left), KnownType(g.types, scopes, e.right);
    if !IsComparison(e.binary) && !IsLogical(e.binary) && l.Some? && r.Some? {
      assert Typed(g, e.left, l.value) && Typed(g, e.right, r.value);
      CombinesIff(e.binary, l.value, r.value, t);
      hide Combines, KnownArithmetic;
    }
  }

  lemma ClashIff(c: Context, g: Site, e: Expr, expected: Option<ResolvedType>, x: SemanticError)
    requires c.types == g.types && c.span == g.at && SameScopes(c.scopes, g.layers)
    ensures Reports(CheckContractErrors(c, e, expected), x) <==> Clash(g, e, expected, x)
  {
    hide Typed, KnownType, TypeName, InRange;
    var known := KnownType(c.types, c.scopes, e);
    forall t
      ensures Typed(g, e, t) <==> known == Some(t)
    {
      TypedIff(c.scopes, g, e, t);
    }
    if expected.Some? && InRange(c.types, expected.value) && known.Some? {
      ReportsThis(Here(c, e.Where()), TypeMismatch, [TypeName(c.types, expected.value)] + [known.value],
                  known.value != TypeName(c.types, expected.value), x);
    }
  }

  lemma NoMemberIff(c: Context, g: Site, owner: Expr, name: string, x: SemanticError)
    requires c.types == g.types && c.span == g.at && SameScopes(c.scopes, g.layers)
    ensures Reports(CheckMemberErrors(c, owner, name), x) <==> NoMember(g, owner, name, x)
  {
    hide Typed, KnownType, FindField;
    var known := KnownType(c.types, c.scopes, owner);
    forall t
      ensures Typed(g, owner, t) <==> known == Some(t)
    {
      TypedIff(c.scopes, g, owner, t);
    }
    if known.Some? {
      ReportsThis(c, TypeMismatch, [known.value, name],
                  IsRecord(g, known.value) && FindField(c.types[RecordId(g, known.value)].fields, name).None?, x);
    }
  }
}
