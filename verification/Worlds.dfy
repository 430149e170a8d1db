/**
 * The invariant that ties a running program to its analysis. A world assigns to
 * every arena slot the symbol the analyzer gave its declaration, and to every
 * closure the context its declaration was analyzed in.
 */
module Worlds {
  import opened Wrappers
  import opened Ast
  import opened Types
  import opened Values
  import opened Operations
  import opened Analysis
  import opened Evaluation
  import opened Evolution
  import opened Typing

  datatype Declared = Declared(context: Context, function_: Stmt)

  datatype World = World(slots: seq<Symbol>, functions: seq<Declared>)

  ghost predicate Grows(a: World, b: World) {
    a.slots <= b.slots && a.functions <= b.functions
  }

  // ----- environments against scopes -----

  /** One level: the same names, each bound to a slot of its symbol. */
  ghost predicate ScopeMatches(slots: seq<Symbol>, scope: map<string, nat>, symbols: map<string, Symbol>) {
    && scope.Keys == symbols.Keys
    && forall n | n in scope :: scope[n] < |slots| && slots[scope[n]] == symbols[n]
  }

  /** Scope correspondence: as many levels, and the same names at each. */
  ghost predicate EnvMatches(slots: seq<Symbol>, env: Environment, scopes: Scopes) {
    |env| == |scopes| && forall l | 0 <= l < |env| :: ScopeMatches(slots, env[l], scopes[l])
  }

  // ----- slots and closures -----

  /** What a binding of this symbol may be called as. */
  ghost predicate Callable(functions: seq<FunctionDef>, symbol: Symbol, v: Value) {
    || (symbol.FunctionSymbol? && v.FunctionValue? && v.id < |functions| && functions[v.id].result == symbol.result)
    || (symbol.FunctionSymbol? && v.BuiltinValue? && symbol.result.None?)
    || (symbol.BuiltinSymbol? && v.PrintValue?)
  }

  /** A name bound to a function or built-in evaluates to what its symbol says. */
  ghost predicate CalleeFits(functions: seq<FunctionDef>, scopes: Scopes, e: Expr, v: Value) {
    var bare := e.Unspanned();
    bare.Identifier? ==>
      var symbol := LookUpSymbol(scopes, bare.name);
      symbol.Some? && !symbol.value.IsMutable() ==> Callable(functions, symbol.value, v)
  }

  ghost predicate ValueFits(cfg: Config, functions: seq<FunctionDef>, symbol: Symbol, v: Value) {
    && WellTyped(cfg.types, cfg.identity, v)
    && (symbol.Contract().Some? ==> HasType(cfg.identity, symbol.Contract().value, v))
    && (!symbol.IsMutable() ==> Callable(functions, symbol, v))
  }

  ghost predicate SlotFits(cfg: Config, functions: seq<FunctionDef>, symbol: Symbol, b: Binding) {
    && b.annotation == symbol.Contract()
    && (symbol.Contract().Some? ==> InRange(cfg.types, symbol.Contract().value))
    && b.mutable == symbol.IsMutable()
    && (b.value.Some? ==> ValueFits(cfg, functions, symbol, b.value.value))
  }

  /** Below the innermost worker boundary every name denotes a captured slot. */
  ghost predicate Captures(captured: nat, env: Environment, boundaries: seq<Boundary>) {
    boundaries != [] ==>
      var depth := boundaries[|boundaries| - 1].depth;
      depth < |env| && forall l, n | 0 <= l < depth && n in env[l] :: env[l][n] < captured
  }

  ghost predicate ClosureFits(cfg: Config, captured: nat, slots: seq<Symbol>, fn: FunctionDef, d: Declared) {
    && d.function_.Function? && d.context.types == cfg.types
    && StatementErrors(d.context, d.function_) == []
    && fn.parameters == d.function_.parameters
    && fn.body == d.function_.body
    && fn.result == ResolveAnnotation(cfg.types, d.function_.result)
    && EnvMatches(slots, fn.closure, d.context.scopes)
    && Captures(captured, fn.closure, d.context.boundaries)
  }

  ghost predicate SlotsFit(cfg: Config, st: State, w: World) {
    |w.slots| == |st.bindings| && forall i | 0 <= i < |st.bindings| :: SlotFits(cfg, st.functions, w.slots[i], st.bindings[i])
  }

  ghost predicate ClosuresFit(cfg: Config, captured: nat, st: State, w: World) {
    && |w.functions| == |st.functions|
    && forall i | 0 <= i < |st.functions| :: ClosureFits(cfg, captured, w.slots, st.functions[i], w.functions[i])
  }

  /** Store typing: the whole state fits the world. */
  ghost predicate Fits(cfg: Config, captured: nat, st: State, w: World) {
    captured <= |st.bindings| && SlotsFit(cfg, st, w) && ClosuresFit(cfg, captured, st, w)
  }

  /** Replies cannot break record contracts: hosts can neither build nor edit records. */
  ghost predicate HostOk(cfg: Config) {
    forall history :: cfg.lib.reply(history).Answer? ==> WellTyped(cfg.types, cfg.identity, cfg.lib.reply(history).value)
  }

  // ----- program points -----

  ghost predicate Initialized(st: State, env: Environment) {
    forall l, n | 0 <= l < |env| && n in env[l] :: env[l][n] < |st.bindings| && st.bindings[env[l][n]].value.Some?
  }

  /**
   * Code that runs directly in its worker, not in a function called from it,
   * sees every name at or above the boundary in a slot of its own.
   */
  ghost predicate Direct(captured: nat, env: Environment, boundaries: seq<Boundary>) {
    if boundaries == [] then captured == 0
    else forall l, n | boundaries[|boundaries| - 1].depth <= l < |env| && n in env[l] :: env[l][n] >= captured
  }

  /** Everything known wherever the evaluator stands. `base` is the call depth the current worker started at. */
  ghost predicate Point(cfg: Config, base: nat, f: Frame, st: State, w: World, env: Environment, c: Context) {
    && RegistryOk(cfg.types) && HostOk(cfg)
    && c.types == cfg.types
    && (f.result.Some? ==> InRange(cfg.types, f.result.value))
    && Fits(cfg, f.captured, st, w)
    && EnvMatches(w.slots, env, c.scopes)
    && Captures(f.captured, env, c.boundaries)
    && |f.stack| >= base
    && (|f.stack| == base ==> Direct(f.captured, env, c.boundaries))
    && (f.stack == [] ==> Initialized(st, env))
  }

  lemma PointFacts(cfg: Config, base: nat, f: Frame, st: State, w: World, env: Environment, c: Context)
    requires Point(cfg, base, f, st, w, env, c)
    ensures RegistryOk(cfg.types) && HostOk(cfg) && c.types == cfg.types
    ensures Fits(cfg, f.captured, st, w) && |env| == |c.scopes|
    ensures f.result.Some? ==> InRange(cfg.types, f.result.value)
  {
  }

  /** Locations and expression depth are no part of a program point. */
  lemma Moves(cfg: Config, base: nat, f: Frame, g: Frame, st: State, w: World, env: Environment, c: Context, d: Context)
    requires Point(cfg, base, f, st, w, env, c)
    requires g == f.(span := g.span, depth := g.depth) && d == c.(span := d.span)
    ensures Point(cfg, base, g, st, w, env, d)
  {
  }

  // ----- outcomes -----

  /**
   * The errors an accepted program can end with. Undefined names, escaping
   * control flow, unknown constructors, records without a declared field and the
   * code's own panics never appear; an uninitialized read and a captured write
   * need a function call, and then do occur (Witnesses.dfy).
   */
  ghost predicate Allowed(base: nat, error: RuntimeError) {
    var m := Bare(error.message);
    || Harmless(m)
    || (m.Uninitialized? && error.stack != [])
    || (m.ReadOnlyCapture? && |error.stack| > base)
  }

  ghost predicate Lands(cfg: Config, captured: nat, st: State, w: World, after: State, w': World) {
    Fits(cfg, captured, after, w') && Grows(w, w') && Evolves(captured, st, after)
  }

  // ----- transport -----

  lemma EnvGrows(a: seq<Symbol>, b: seq<Symbol>, env: Environment, scopes: Scopes)
    requires EnvMatches(a, env, scopes) && a <= b
    ensures EnvMatches(b, env, scopes)
  {
    forall l | 0 <= l < |env|
      ensures ScopeMatches(b, env[l], scopes[l])
    {
      assert ScopeMatches(a, env[l], scopes[l]);
    }
  }

  lemma InitializedEvolves(captured: nat, a: State, b: State, env: Environment)
    requires Initialized(a, env) && Evolves(captured, a, b)
    ensures Initialized(b, env)
  {
    forall l, n | 0 <= l < |env| && n in env[l]
      ensures env[l][n] < |b.bindings| && b.bindings[env[l][n]].value.Some?
    {
      assert KeepsSlot(a.bindings[env[l][n]], b.bindings[env[l][n]]);
    }
  }

  /** A program point survives whatever runs in between. */
  lemma Stays(cfg: Config, base: nat, f: Frame, st: State, w: World, env: Environment, c: Context, after: State, w': World)
    requires Point(cfg, base, f, st, w, env, c) && Lands(cfg, f.captured, st, w, after, w')
    ensures Point(cfg, base, f, after, w', env, c)
  {
    EnvGrows(w.slots, w'.slots, env, c.scopes);
    if f.stack == [] {
      InitializedEvolves(f.captured, st, after, env);
    }
  }

  lemma LandsThen(cfg: Config, captured: nat, a: State, u: World, b: State, v: World, d: State, x: World)
    requires Lands(cfg, captured, a, u, b, v) && Lands(cfg, captured, b, v, d, x)
    ensures Lands(cfg, captured, a, u, d, x)
  {
    Then(captured, a, b, d);
  }

  lemma LandsHere(cfg: Config, captured: nat, st: State, w: World, after: State)
    requires Fits(cfg, captured, st, w) && Evolves(captured, st, after)
    requires after.bindings == st.bindings && after.functions == st.functions
    ensures Lands(cfg, captured, st, w, after, w)
  {
  }

  lemma LandsGrows(cfg: Config, captured: nat, st: State, w: World, after: State, w': World)
    requires Lands(cfg, captured, st, w, after, w')
    ensures st.functions <= after.functions && Fits(cfg, captured, after, w') && Evolves(captured, st, after)
  {
  }

  lemma LandsSame(cfg: Config, captured: nat, st: State, w: World)
    requires Fits(cfg, captured, st, w)
    ensures Lands(cfg, captured, st, w, st, w)
  {
  }

  lemma FitsSizes(cfg: Config, captured: nat, st: State, w: World)
    requires Fits(cfg, captured, st, w)
    ensures captured <= |st.bindings| == |w.slots| && |st.functions| == |w.functions|
  {
  }

  // ----- names -----

  /** Both lookups find the same declaration, at the same level. */
  lemma {:induction false} LookUpAgrees(slots: seq<Symbol>, env: Environment, scopes: Scopes, name: string)
    requires EnvMatches(slots, env, scopes)
    ensures LookUp(env, name).Some? <==> LookUpDepth(scopes, name).Some?
    ensures LookUp(env, name).Some? ==>
              var id, found := LookUp(env, name).value, LookUpDepth(scopes, name).value;
              id < |slots| && slots[id] == found.1 && found.0 < |env| && name in env[found.0] && env[found.0][name] == id
    decreases |env|
  {
    if env != [] {
      var last := |env| - 1;
      assert ScopeMatches(slots, env[last], scopes[last]);
      if name !in env[last] {
        forall l | 0 <= l < last
          ensures ScopeMatches(slots, env[..last][l], scopes[..last][l])
        {
          assert ScopeMatches(slots, env[l], scopes[l]);
        }
        LookUpAgrees(slots, env[..last], scopes[..last], name);
      }
    }
  }

  /** Reading a name that the analyzer resolved. */
  lemma VariableSound(cfg: Config, base: nat, f: Frame, st: State, w: World, env: Environment, c: Context, name: string)
    requires Point(cfg, base, f, st, w, env, c) && LookUpSymbol(c.scopes, name).Some?
    ensures var o := Variable(f, st, name, env);
            && (o.res.Err? ==> Allowed(base, o.res.error))
            && (o.res.Ok? ==> Describes(cfg.types, cfg.identity, c.scopes, Identifier(name), o.res.value))
            && (o.res.Ok? ==> CalleeFits(st.functions, c.scopes, Identifier(name), o.res.value))
  {
    LookUpAgrees(w.slots, env, c.scopes, name);
    var id := LookUp(env, name).value;
    assert SlotFits(cfg, st.functions, w.slots[id], st.bindings[id]);
    var o := Variable(f, st, name, env);
    if o.res.Ok? {
      var symbol := LookUpSymbol(c.scopes, name).value;
      if symbol.Contract().Some? {
        TypeHasName(cfg.types, cfg.identity, o.res.value, symbol.Contract().value);
      }
    }
  }

  // ----- changes of state -----

  lemma StoreFits(cfg: Config, captured: nat, st: State, w: World, id: nat, v: Value)
    requires Fits(cfg, captured, st, w) && captured <= id < |st.bindings| && st.bindings[id].mutable
    requires WellTyped(cfg.types, cfg.identity, v)
    requires st.bindings[id].annotation.Some? ==> HasType(cfg.identity, st.bindings[id].annotation.value, v)
    ensures Lands(cfg, captured, st, w, Store(st, id, v), w)
  {
    Stored(captured, st, id, v);
    var after := Store(st, id, v);
    forall i | 0 <= i < |after.bindings|
      ensures SlotFits(cfg, after.functions, w.slots[i], after.bindings[i])
    {
      assert SlotFits(cfg, st.functions, w.slots[i], st.bindings[i]);
    }
  }

  lemma ClosuresGrow(cfg: Config, captured: nat, st: State, w: World, slots: seq<Symbol>)
    requires ClosuresFit(cfg, captured, st, w) && w.slots <= slots
    ensures ClosuresFit(cfg, captured, st, w.(slots := slots))
  {
    forall i | 0 <= i < |st.functions|
      ensures ClosureFits(cfg, captured, slots, st.functions[i], w.functions[i])
    {
      assert ClosureFits(cfg, captured, w.slots, st.functions[i], w.functions[i]);
      EnvGrows(w.slots, slots, st.functions[i].closure, w.functions[i].context.scopes);
    }
  }

  /** A new slot takes the symbol of its declaration. */
  lemma AllocateFits(
    cfg: Config, captured: nat, st: State, w: World, annotation: Option<ResolvedType>, value: Option<Value>, mutable: bool,
    symbol: Symbol)
    requires Fits(cfg, captured, st, w)
    requires SlotFits(cfg, st.functions, symbol, Binding(annotation, value, mutable))
    ensures Lands(cfg, captured, st, w, Allocate(st, annotation, value, mutable), w.(slots := w.slots + [symbol]))
  {
    ClosuresGrow(cfg, captured, st, w, w.slots + [symbol]);
    Allocated(captured, st, annotation, value, mutable);
  }

  /** Binding a name at the innermost level on both sides. */
  lemma BindMatches(slots: seq<Symbol>, env: Environment, c: Context, name: string, id: nat, symbol: Symbol)
    requires EnvMatches(slots, env, c.scopes) && env != [] && id < |slots| && slots[id] == symbol
    requires DeclareErrors(c, name) == []
    ensures EnvMatches(slots, Bind(env, name, id), Declare(c, name, symbol).scopes)
  {
    var last := |env| - 1;
    forall l | 0 <= l < |env|
      ensures ScopeMatches(slots, Bind(env, name, id)[l], Declare(c, name, symbol).scopes[l])
    {
      assert ScopeMatches(slots, env[l], c.scopes[l]);
    }
  }

  /** Rebinding the innermost level leaves the captured levels alone. */
  lemma BindCaptures(captured: nat, env: Environment, boundaries: seq<Boundary>, name: string, id: nat)
    requires Captures(captured, env, boundaries) && env != []
    ensures Captures(captured, Bind(env, name, id), boundaries)
    ensures Direct(captured, env, boundaries) && id >= captured ==> Direct(captured, Bind(env, name, id), boundaries)
  {
  }

  /** A nested scope with at most one new name. */
  lemma PushMatches(slots: seq<Symbol>, env: Environment, scopes: Scopes, scope: map<string, nat>, symbols: map<string, Symbol>)
    requires EnvMatches(slots, env, scopes) && ScopeMatches(slots, scope, symbols)
    ensures EnvMatches(slots, env + [scope], scopes + [symbols])
  {
  }

  // ----- assignment -----

  lemma {:induction false} SetHarmless(types: seq<TypeDef>, identity: nat, root: Value, selectors: seq<Selector>, value: Value)
    requires WellTyped(types, identity, root)
    ensures Set(types, identity, root, selectors, value).Err? ==> Harmless(Set(types, identity, root, selectors, value).error)
    decreases |selectors|
  {
    if selectors != [] {
      var rest := selectors[1..];
      if root.ArrayValue? {
        var index := IndexOf(selectors[0]);
        if index.Some? && 0 <= index.value < |root.elements| {
          SetHarmless(types, identity, root.elements[index.value], rest, value);
        }
      } else if root.ObjectValue? || root.Record? {
        var key := KeyOf(selectors[0]);
        if key.Some? && key.value in root.fields {
          SetHarmless(types, identity, root.fields[key.value], rest, value);
        }
      }
    }
  }

  /** A value that passes the binding's contract may be stored. */
  lemma StoreChecked(cfg: Config, f: Frame, st: State, w: World, id: nat, v: Value)
    requires Fits(cfg, f.captured, st, w) && f.captured <= id < |st.bindings| && st.bindings[id].mutable
    requires WellTyped(cfg.types, cfg.identity, v) && CheckType(cfg, st.bindings[id].annotation, v).None?
    ensures Lands(cfg, f.captured, st, w, Store(st, id, v), w)
  {
    assert SlotFits(cfg, st.functions, w.slots[id], st.bindings[id]);
    StoreFits(cfg, f.captured, st, w, id, v);
  }

  /** The value an assignment stores: the new value itself, or the root with one place changed. */
  lemma WrittenSound(cfg: Config, st: State, place: Place, v: Value, root: Value)
    requires WellTyped(cfg.types, cfg.identity, root) && WellTyped(cfg.types, cfg.identity, v)
    ensures var written := Set(cfg.types, cfg.identity, root, place.selectors, v);
            && (written.Err? ==> Harmless(written.error))
            && (written.Ok? ==> WellTyped(cfg.types, cfg.identity, written.value))
  {
    SetHarmless(cfg.types, cfg.identity, root, place.selectors, v);
    if Set(cfg.types, cfg.identity, root, place.selectors, v).Ok? {
      SetKeepsWellTyped(cfg.types, cfg.identity, root, place.selectors, v);
    }
  }

  /** What a slot holds is well typed, and a value its contract refuses is refused with a harmless message. */
  lemma SlotFacts(cfg: Config, captured: nat, st: State, w: World, id: nat, v: Value)
    requires Fits(cfg, captured, st, w) && id < |st.bindings|
    ensures st.bindings[id].value.Some? ==> WellTyped(cfg.types, cfg.identity, st.bindings[id].value.value)
    ensures var mismatch := CheckType(cfg, st.bindings[id].annotation, v); mismatch.Some? ==> Harmless(mismatch.value)
  {
    hide WellTyped, ClosuresFit;
    assert SlotFits(cfg, st.functions, w.slots[id], st.bindings[id]);
  }

  /** A permitted write of a well-typed value keeps the store typing. */
  lemma WriteSound(cfg: Config, base: nat, f: Frame, st: State, w: World, place: Place, v: Value)
    requires Fits(cfg, f.captured, st, w) && f.captured <= place.id < |st.bindings| && st.bindings[place.id].mutable
    requires WellTyped(cfg.types, cfg.identity, v)
    requires f.stack == [] ==> st.bindings[place.id].value.Some?
    ensures var o := Write(cfg, f, st, place, v);
            && Lands(cfg, f.captured, st, w, o.st, w)
            && (o.res.Err? ==> Allowed(base, o.res.error))
            && (o.res.Ok? ==> o.res.value == v)
  {
    hide Set, WellTyped, Fits, Lands, CheckType, Evolves;
    LandsSame(cfg, f.captured, st, w);
    var changed := v;
    if place.selectors != [] {
      if st.bindings[place.id].value.None? { return; }
      var root := st.bindings[place.id].value.value;
      SlotFacts(cfg, f.captured, st, w, place.id, root);
      WrittenSound(cfg, st, place, v, root);
      var written := Set(cfg.types, cfg.identity, root, place.selectors, v);
      if written.Err? { return; }
      changed := written.value;
    }
    SlotFacts(cfg, f.captured, st, w, place.id, changed);
    if CheckType(cfg, st.bindings[place.id].annotation, changed).Some? { return; }
    StoreChecked(cfg, f, st, w, place.id, changed);
  }

  /** A slot below the boundary is refused; directly in a worker the analyzer refused it first. */
  lemma PermissionSound(cfg: Config, base: nat, f: Frame, st: State, w: World, env: Environment, c: Context, target: Expr, id: nat)
    requires Point(cfg, base, f, st, w, env, c) && !CapturesRoot(c, target)
    requires RootOf(target).Some? && LookUp(env, RootOf(target).value) == Some(id)
    ensures id < |st.bindings|
    ensures Permission(f, st, id).Some? ==> Allowed(base, Error(f, Permission(f, st, id).value))
  {
    LookUpAgrees(w.slots, env, c.scopes, RootOf(target).value);
    assert SlotFits(cfg, st.functions, w.slots[id], st.bindings[id]);
  }

  /** Completeness of the static check: an assignment it rejects as captured would be refused when run. */
  lemma CapturedAssignmentIsRefused(
    cfg: Config, base: nat, f: Frame, st: State, w: World, env: Environment, c: Context, target: Expr, id: nat)
    requires Point(cfg, base, f, st, w, env, c) && CapturesRoot(c, target)
    requires LookUp(env, RootOf(target).value) == Some(id)
    ensures id < f.captured && Permission(f, st, id) == Some(ReadOnlyCapture)
  {
    LookUpAgrees(w.slots, env, c.scopes, RootOf(target).value);
    assert SlotFits(cfg, st.functions, w.slots[id], st.bindings[id]);
  }

  // ----- parameters -----

  /** Contexts that agree on everything but names, spans and declared types. */
  predicate SameControl(a: Context, b: Context) {
    && a.types == b.types && a.result == b.result && a.loops == b.loops
    && a.functionDepth == b.functionDepth && a.boundaries == b.boundaries && |a.scopes| == |b.scopes|
  }

  lemma {:induction false} DeclareParametersKeeps(c: Context, parameters: seq<Parameter>, n: nat)
    requires n <= |parameters|
    ensures SameControl(c, DeclareParameters(c, parameters, n))
  {
    if n > 0 {
      DeclareParametersKeeps(c, parameters, n - 1);
    }
  }

  lemma {:induction false} ParameterClean(c: Context, parameters: seq<Parameter>, n: nat, k: nat)
    requires n <= |parameters| && ParameterErrors(c, parameters, n) == [] && k < n
    ensures DeclareErrors(DeclareParameters(c, parameters, k), parameters[k].name) == []
    decreases n
  {
    if k < n - 1 {
      ParameterClean(c, parameters, n - 1, k);
    }
  }

  lemma {:induction false} BindParametersSound(
    cfg: Config, f: Frame, st: State, w: World, closure: Environment, c: Context, parameters: seq<Parameter>,
    args: seq<Value>, i: nat, scope: map<string, nat>)
    returns (w': World)
    requires Fits(cfg, f.captured, st, w) && c.types == cfg.types && i <= |parameters| == |args|
    requires ParameterErrors(c, parameters, |parameters|) == []
    requires EnvMatches(w.slots, closure + [scope], DeclareParameters(c, parameters, i).scopes)
    requires forall k | 0 <= k < |args| :: WellTyped(cfg.types, cfg.identity, args[k])
    ensures var o := BindParameters(cfg, f, st, parameters, args, i, scope);
            && Lands(cfg, f.captured, st, w, o.st, w')
            && (o.res.Err? ==> Harmless(o.res.error.message))
            && (o.res.Ok? ==> EnvMatches(w'.slots, closure + [o.res.value], DeclareParameters(c, parameters, |parameters|).scopes))
    decreases |parameters| - i
  {
    w' := w;
    LandsHere(cfg, f.captured, st, w, st);
    if i == |parameters| { return; }
    var annotation := ResolveAnnotation(cfg.types, parameters[i].annotation);
    if CheckType(cfg, annotation, args[i]).Some? { return; }
    var symbol := ParameterSymbol(annotation);
    var next := Allocate(st, annotation, Some(args[i]), true);
    var w1 := w.(slots := w.slots + [symbol]);
    AllocateFits(cfg, f.captured, st, w, annotation, Some(args[i]), true, symbol);
    var name, id := parameters[i].name, |st.bindings|;
    var before := DeclareParameters(c, parameters, i);
    ParameterClean(c, parameters, |parameters|, i);
    EnvGrows(w.slots, w1.slots, closure + [scope], before.scopes);
    BindMatches(w1.slots, closure + [scope], before, name, id, symbol);
    DeclareParametersKeeps(c, parameters, i);
    assert Bind(closure + [scope], name, id) == closure + [scope[name := id]];
    w' := BindParametersSound(cfg, f, next, w1, closure, c, parameters, args, i + 1, scope[name := id]);
    LandsThen(cfg, f.captured, st, w, next, w1,
              BindParameters(cfg, f, next, parameters, args, i + 1, scope[name := id]).st, w');
  }
}
