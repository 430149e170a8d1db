/**
 * Statement lists (src/interpreter/mod.rs, `statements`). A list first reserves
 * a slot for every `let`, then installs its functions, giving each closure the
 * slots of the earlier lets only, and exposes a `let` once its initializer has
 * run. The analyzer instead hoists the functions into the scope and declares
 * each `let` when it comes to it. Here the two are kept in step: the reserved
 * slots, the installed closures and the names made visible correspond to the
 * context in which the analyzer checks each statement and each function body.
 */
module Lists {
  import opened Wrappers
  import opened Ast
  import opened Types
  import opened Values
  import opened Analysis
  import opened Evaluation
  import opened Evolution
  import opened Worlds

  // ----- contexts of a list -----

  lemma {:induction false} HoistKeeps(c: Context, stmts: seq<Stmt>, n: nat)
    requires n <= |stmts|
    ensures SameControl(c, Hoist(c, stmts, n))
  {
    if n > 0 {
      HoistKeeps(c, stmts, n - 1);
    }
  }

  lemma {:induction false} ContextAtKeeps(c: Context, stmts: seq<Stmt>, n: nat)
    requires n <= |stmts|
    ensures SameControl(c, ContextAt(c, stmts, n))
  {
    if n > 0 {
      ContextAtKeeps(c, stmts, n - 1);
    }
  }

  lemma {:induction false} HoistClean(c: Context, stmts: seq<Stmt>, n: nat, k: nat)
    requires n <= |stmts| && HoistErrors(c, stmts, n) == [] && k < n && stmts[k].Unspanned().Function?
    ensures DeclareErrors(Hoist(c, stmts, k), stmts[k].Unspanned().name) == []
    decreases n
  {
    if k < n - 1 {
      HoistClean(c, stmts, n - 1, k);
    }
  }

  lemma {:induction false} SequenceClean(c: Context, body: Stmt, n: nat, k: nat)
    requires n <= |Contents(body)| && SequenceErrors(c, body, n) == [] && k < n
    ensures StatementErrors(ContextAt(c, Contents(body), k), Contents(body)[k]) == []
    decreases n
  {
    hide StatementErrors, ContextAt, Contents;
    if k < n - 1 {
      SequenceClean(c, body, n - 1, k);
    }
  }

  ghost predicate AllStatementsClean(c: Context, stmts: seq<Stmt>) {
    forall k | 0 <= k < |stmts| :: StatementErrors(ContextAt(c, stmts, k), stmts[k]) == []
  }

  /** The context with the innermost location of a wrapped statement. */
  function UnderSpan(c: Context, s: Stmt): (u: Context)
    ensures SameControl(c, u) && u.scopes == c.scopes && u.declared == c.declared
    decreases s
  {
    if s.LocatedStmt? then UnderSpan(c.(span := Some(s.span)), s.inner) else c
  }

  lemma {:induction false} UnwrappedErrors(c: Context, s: Stmt)
    ensures StatementErrors(c, s) == StatementErrors(UnderSpan(c, s), s.Unspanned())
    decreases s
  {
    if s.LocatedStmt? {
      UnwrappedErrors(c.(span := Some(s.span)), s.inner);
    }
  }

  // ----- symbols of reserved slots -----

  function SymbolOf(types: seq<TypeDef>, s: Stmt): Symbol
    requires s.Let? || s.Function?
  {
    if s.Let? then VariableSymbol(ResolveAnnotation(types, s.annotation)) else SymbolOfFunction(types, s)
  }

  ghost predicate SlotSymbol(types: seq<TypeDef>, symbols: seq<Symbol>, s: Stmt, slot: Option<nat>) {
    slot.Some? && (s.Let? || s.Function?) ==> slot.value < |symbols| && symbols[slot.value] == SymbolOf(types, s)
  }

  ghost predicate SlotSymbols(types: seq<TypeDef>, symbols: seq<Symbol>, stmts: seq<Stmt>, slots: seq<Option<nat>>) {
    |slots| <= |stmts| && forall i | 0 <= i < |slots| :: SlotSymbol(types, symbols, stmts[i].Unspanned(), slots[i])
  }

  lemma SlotSymbolsGrow(types: seq<TypeDef>, a: seq<Symbol>, b: seq<Symbol>, stmts: seq<Stmt>, slots: seq<Option<nat>>)
    requires SlotSymbols(types, a, stmts, slots) && a <= b
    ensures SlotSymbols(types, b, stmts, slots)
  {
    forall i | 0 <= i < |slots|
      ensures SlotSymbol(types, b, stmts[i].Unspanned(), slots[i])
    {
      assert SlotSymbol(types, a, stmts[i].Unspanned(), slots[i]);
    }
  }

  /** Hoisting adds only names of functions, bound to their reserved slots. */
  ghost predicate OnlyFunctionsAdded(env: Environment, extended: Environment, stmts: seq<Stmt>, slots: seq<Option<nat>>) {
    |env| == |extended| && |slots| <= |stmts| &&
    forall l, n | 0 <= l < |env| && n in extended[l] ::
      || (n in env[l] && env[l][n] == extended[l][n])
      || IsFunctionSlot(stmts, slots, extended[l][n])
  }

  ghost predicate IsFunctionSlot(stmts: seq<Stmt>, slots: seq<Option<nat>>, id: nat) {
    exists i :: 0 <= i < |slots| && i < |stmts| && stmts[i].Unspanned().Function? && slots[i] == Some(id)
  }

  lemma AddFunctionName(env: Environment, extended: Environment, stmts: seq<Stmt>, slots: seq<Option<nat>>, id: nat)
    requires OnlyFunctionsAdded(env, extended, stmts, slots) && extended != []
    requires |slots| < |stmts| && stmts[|slots|].Unspanned().Function?
    ensures OnlyFunctionsAdded(env, Bind(extended, stmts[|slots|].Unspanned().name, id), stmts, slots + [Some(id)])
  {
    var more := slots + [Some(id)];
    assert more[|slots|] == Some(id);
    assert IsFunctionSlot(stmts, more, id);
    SkipName(env, extended, stmts, slots, Some(id));
  }

  lemma SkipName(env: Environment, extended: Environment, stmts: seq<Stmt>, slots: seq<Option<nat>>, slot: Option<nat>)
    requires OnlyFunctionsAdded(env, extended, stmts, slots) && |slots| < |stmts|
    ensures OnlyFunctionsAdded(env, extended, stmts, slots + [slot])
  {
    var more := slots + [slot];
    forall l, n | 0 <= l < |env| && n in extended[l]
      ensures (n in env[l] && env[l][n] == extended[l][n]) || IsFunctionSlot(stmts, more, extended[l][n])
    {
      if IsFunctionSlot(stmts, slots, extended[l][n]) {
        var i :| 0 <= i < |slots| && i < |stmts| && stmts[i].Unspanned().Function? && slots[i] == Some(extended[l][n]);
        assert more[i] == slots[i];
      }
    }
  }

  // ----- reserving -----

  /** What holds after some statements of a list have their slots. */
  ghost predicate Reserving(
    cfg: Config, captured: nat, st: State, w: World, stmts: seq<Stmt>, outer: Environment, env: Environment,
    slots: seq<Option<nat>>, c: Context)
  {
    && |slots| <= |stmts| && c.types == cfg.types && env != []
    && Fits(cfg, captured, st, w)
    && EnvMatches(w.slots, env, Hoist(c, stmts, |slots|).scopes)
    && SlotSymbols(cfg.types, w.slots, stmts, slots)
    && OnlyFunctionsAdded(outer, env, stmts, slots)
    && Captures(captured, env, c.boundaries)
    && (Direct(captured, outer, c.boundaries) ==> Direct(captured, env, c.boundaries))
  }

  lemma ReserveLet(
    cfg: Config, captured: nat, st: State, w: World, stmts: seq<Stmt>, outer: Environment, env: Environment,
    slots: seq<Option<nat>>, c: Context)
    returns (w': World)
    requires Reserving(cfg, captured, st, w, stmts, outer, env, slots, c)
    requires |slots| < |stmts| && stmts[|slots|].Unspanned().Let?
    ensures var next := Allocate(st, ResolveAnnotation(cfg.types, stmts[|slots|].Unspanned().annotation), None, true);
            && Lands(cfg, captured, st, w, next, w')
            && Reserving(cfg, captured, next, w', stmts, outer, env, slots + [Some(|st.bindings|)], c)
  {
    var annotation := ResolveAnnotation(cfg.types, stmts[|slots|].Unspanned().annotation);
    w' := w.(slots := w.slots + [VariableSymbol(annotation)]);
    AllocateFits(cfg, captured, st, w, annotation, None, true, VariableSymbol(annotation));
    EnvGrows(w.slots, w'.slots, env, Hoist(c, stmts, |slots|).scopes);
    SlotSymbolsGrow(cfg.types, w.slots, w'.slots, stmts, slots);
    SkipName(outer, env, stmts, slots, Some(|st.bindings|));
  }

  /** Hoisting one function name on both sides. */
  lemma HoistName(
    captured: nat, symbols: seq<Symbol>, stmts: seq<Stmt>, env: Environment, i: nat, id: nat, c: Context)
    requires i < |stmts| && stmts[i].Unspanned().Function? && HoistErrors(c, stmts, |stmts|) == [] && env != []
    requires EnvMatches(symbols, env, Hoist(c, stmts, i).scopes) && Captures(captured, env, c.boundaries)
    requires captured <= id < |symbols| && symbols[id] == SymbolOfFunction(c.types, stmts[i].Unspanned())
    ensures var bound := Bind(env, stmts[i].Unspanned().name, id);
            && EnvMatches(symbols, bound, Hoist(c, stmts, i + 1).scopes)
            && Captures(captured, bound, c.boundaries)
            && (Direct(captured, env, c.boundaries) ==> Direct(captured, bound, c.boundaries))
  {
    var s := stmts[i].Unspanned();
    HoistClean(c, stmts, |stmts|, i);
    BindMatches(symbols, env, Hoist(c, stmts, i), s.name, id, SymbolOfFunction(c.types, s));
    BindCaptures(captured, env, c.boundaries, s.name, id);
  }

  lemma ReserveFunction(
    cfg: Config, captured: nat, st: State, w: World, stmts: seq<Stmt>, outer: Environment, env: Environment,
    slots: seq<Option<nat>>, c: Context)
    returns (w': World)
    requires Reserving(cfg, captured, st, w, stmts, outer, env, slots, c) && HoistErrors(c, stmts, |stmts|) == []
    requires |slots| < |stmts| && stmts[|slots|].Unspanned().Function?
    ensures var next := Allocate(st, None, None, false);
            && Lands(cfg, captured, st, w, next, w')
            && Reserving(cfg, captured, next, w', stmts, outer, Bind(env, stmts[|slots|].Unspanned().name, |st.bindings|),
                         slots + [Some(|st.bindings|)], c)
  {
    hide EnvMatches, Captures, Direct, OnlyFunctionsAdded, SlotsFit, ClosuresFit, Evolves, HoistErrors;
    FitsSizes(cfg, captured, st, w);
    var i, id := |slots|, |st.bindings|;
    var s := stmts[i].Unspanned();
    var symbol := SymbolOfFunction(cfg.types, s);
    w' := w.(slots := w.slots + [symbol]);
    AllocateFits(cfg, captured, st, w, None, None, false, symbol);
    EnvGrows(w.slots, w'.slots, env, Hoist(c, stmts, i).scopes);
    SlotSymbolsGrow(cfg.types, w.slots, w'.slots, stmts, slots);
    HoistName(captured, w'.slots, stmts, env, i, id, c);
    AddFunctionName(outer, env, stmts, slots, id);
  }

  lemma {:induction false} ReserveSound(
    cfg: Config, captured: nat, st: State, w: World, stmts: seq<Stmt>, outer: Environment, env: Environment,
    slots: seq<Option<nat>>, c: Context)
    returns (w': World)
    requires Reserving(cfg, captured, st, w, stmts, outer, env, slots, c) && HoistErrors(c, stmts, |stmts|) == []
    ensures var r := Reserve(cfg, st, stmts, env, slots);
            && Lands(cfg, captured, st, w, r.st, w')
            && |r.slots| == |stmts|
            && Reserving(cfg, captured, r.st, w', stmts, outer, r.env, r.slots, c)
    decreases |stmts| - |slots|
  {
    hide Fits, EnvMatches, Captures, Direct, OnlyFunctionsAdded, Evolves, HoistErrors;
    w' := w;
    LandsSame(cfg, captured, st, w);
    if |slots| == |stmts| { return; }
    var s := stmts[|slots|].Unspanned();
    var more := slots + [Some(|st.bindings|)];
    if s.Let? {
      var next := Allocate(st, ResolveAnnotation(cfg.types, s.annotation), None, true);
      var w1 := ReserveLet(cfg, captured, st, w, stmts, outer, env, slots, c);
      w' := ReserveSound(cfg, captured, next, w1, stmts, outer, env, more, c);
      LandsThen(cfg, captured, st, w, next, w1, Reserve(cfg, next, stmts, env, more).st, w');
    } else if s.Function? {
      var next := Allocate(st, None, None, false);
      var bound := Bind(env, s.name, |st.bindings|);
      var w1 := ReserveFunction(cfg, captured, st, w, stmts, outer, env, slots, c);
      w' := ReserveSound(cfg, captured, next, w1, stmts, outer, bound, more, c);
      LandsThen(cfg, captured, st, w, next, w1, Reserve(cfg, next, stmts, bound, more).st, w');
    } else {
      SkipName(outer, env, stmts, slots, None);
      w' := ReserveSound(cfg, captured, st, w, stmts, outer, env, slots + [None], c);
    }
  }

  // ----- installing -----

  ghost predicate Installing(
    cfg: Config, captured: nat, st: State, w: World, stmts: seq<Stmt>, slots: seq<Option<nat>>, env: Environment, i: nat, h: Context)
  {
    && i <= |stmts| == |slots| && h.types == cfg.types && env != []
    && Fits(cfg, captured, st, w)
    && SlotsFor(cfg, st, stmts, slots, captured) && SlotSymbols(cfg.types, w.slots, stmts, slots)
    && DistinctSlots(slots) && Pending(st, stmts, slots, i)
    && AllStatementsClean(h, stmts)
    && EnvMatches(w.slots, env, ContextAt(h, stmts, i).scopes)
    && Captures(captured, env, h.boundaries)
  }

  ghost predicate FunctionsReady(st: State, stmts: seq<Stmt>, slots: seq<Option<nat>>, lo: nat, hi: nat) {
    forall k | lo <= k < hi && k < |stmts| && k < |slots| && stmts[k].Unspanned().Function? && slots[k].Some? ::
      slots[k].value < |st.bindings| && st.bindings[slots[k].value].value.Some?
  }

  lemma ClosureInstalled(
    cfg: Config, captured: nat, st: State, w: World, stmts: seq<Stmt>, slots: seq<Option<nat>>, env: Environment, i: nat, h: Context)
    requires Installing(cfg, captured, st, w, stmts, slots, env, i, h) && i < |stmts| && stmts[i].Unspanned().Function?
    ensures ClosureFits(cfg, captured, w.slots, Definition(cfg, stmts[i], env),
                        Declared(UnderSpan(ContextAt(h, stmts, i), stmts[i]), stmts[i].Unspanned()))
  {
    ContextAtKeeps(h, stmts, i);
    UnwrappedErrors(ContextAt(h, stmts, i), stmts[i]);
  }

  /** Appending a closure leaves every other slot and closure as it was. */
  lemma PushClosure(cfg: Config, captured: nat, st: State, w: World, fn: FunctionDef, d: Declared)
    requires Fits(cfg, captured, st, w) && ClosureFits(cfg, captured, w.slots, fn, d)
    ensures Fits(cfg, captured, st.(functions := st.functions + [fn]), w.(functions := w.functions + [d]))
  {
    var pushed := st.(functions := st.functions + [fn]);
    forall k | 0 <= k < |st.bindings|
      ensures SlotFits(cfg, pushed.functions, w.slots[k], pushed.bindings[k])
    {
      assert SlotFits(cfg, st.functions, w.slots[k], st.bindings[k]);
    }
  }

  lemma StoreClosure(cfg: Config, captured: nat, st: State, w: World, slot: nat, id: nat)
    requires Fits(cfg, captured, st, w) && slot < |st.bindings| && id < |st.functions|
    requires w.slots[slot].FunctionSymbol? && w.slots[slot].result == st.functions[id].result
    ensures Fits(cfg, captured, Store(st, slot, FunctionValue(id)), w)
  {
    var after := Store(st, slot, FunctionValue(id));
    forall k | 0 <= k < |st.bindings|
      ensures SlotFits(cfg, after.functions, w.slots[k], after.bindings[k])
    {
      assert SlotFits(cfg, st.functions, w.slots[k], st.bindings[k]);
    }
  }

  lemma InstallFunction(
    cfg: Config, captured: nat, st: State, w: World, stmts: seq<Stmt>, slots: seq<Option<nat>>, env: Environment, i: nat, h: Context)
    returns (w': World)
    requires Installing(cfg, captured, st, w, stmts, slots, env, i, h) && i < |stmts| && stmts[i].Unspanned().Function?
    ensures var pushed := st.(functions := st.functions + [Definition(cfg, stmts[i], env)]);
            var stored := Store(pushed, slots[i].value, FunctionValue(|st.functions|));
            && Lands(cfg, captured, st, w, stored, w') && w'.slots == w.slots
            && Installing(cfg, captured, stored, w', stmts, slots, env, i + 1, h)
  {
    var fn := Definition(cfg, stmts[i], env);
    var d := Declared(UnderSpan(ContextAt(h, stmts, i), stmts[i]), stmts[i].Unspanned());
    var pushed := st.(functions := st.functions + [fn]);
    var stored := Store(pushed, slots[i].value, FunctionValue(|st.functions|));
    w' := w.(functions := w.functions + [d]);
    ClosureInstalled(cfg, captured, st, w, stmts, slots, env, i, h);
    PushClosure(cfg, captured, st, w, fn, d);
    assert SlotSymbol(cfg.types, w.slots, stmts[i].Unspanned(), slots[i]);
    StoreClosure(cfg, captured, pushed, w', slots[i].value, |st.functions|);
    Stored(captured, pushed, slots[i].value, FunctionValue(|st.functions|));
    Then(captured, st, pushed, stored);
    SlotsForEvolves(cfg, captured, st, stored, stmts, slots, captured);
  }

  lemma InstallLet(
    cfg: Config, captured: nat, st: State, w: World, stmts: seq<Stmt>, slots: seq<Option<nat>>, env: Environment, i: nat, h: Context)
    requires Installing(cfg, captured, st, w, stmts, slots, env, i, h) && i < |stmts| && stmts[i].Unspanned().Let?
    ensures Installing(cfg, captured, st, w, stmts, slots, Bind(env, stmts[i].Unspanned().name, slots[i].value), i + 1, h)
  {
    LetBinds(cfg, captured, st, w, stmts, slots, env, i, h);
  }

  /** A clean `let` declares a name that is new in its scope. */
  lemma LetIsNew(h: Context, stmts: seq<Stmt>, i: nat)
    requires i < |stmts| && stmts[i].Unspanned().Let? && AllStatementsClean(h, stmts)
    ensures var s, c := stmts[i].Unspanned(), ContextAt(h, stmts, i);
            && DeclareErrors(WithTypes(c, TypeNames(stmts[i])), s.name) == []
            && ContextAt(h, stmts, i + 1) == Declare(WithTypes(c, TypeNames(stmts[i])), s.name, SymbolOf(h.types, s))
  {
    hide ExpressionErrors, KnownType, TypeNames, Declare, ResolveAnnotation;
    var c := ContextAt(h, stmts, i);
    assert StatementErrors(c, stmts[i]) == [];
    UnwrappedErrors(c, stmts[i]);
    ContextAtKeeps(h, stmts, i);
  }

  /** Executing or anticipating a `let` binds the same name on both sides. */
  lemma LetBinds(
    cfg: Config, captured: nat, st: State, w: World, stmts: seq<Stmt>, slots: seq<Option<nat>>, env: Environment, i: nat, h: Context)
    requires i < |stmts| == |slots| && h.types == cfg.types && env != [] && stmts[i].Unspanned().Let?
    requires SlotsFor(cfg, st, stmts, slots, captured) && SlotSymbols(cfg.types, w.slots, stmts, slots)
    requires AllStatementsClean(h, stmts)
    requires EnvMatches(w.slots, env, ContextAt(h, stmts, i).scopes) && Captures(captured, env, h.boundaries)
    ensures var bound := Bind(env, stmts[i].Unspanned().name, slots[i].value);
            && EnvMatches(w.slots, bound, ContextAt(h, stmts, i + 1).scopes)
            && Captures(captured, bound, h.boundaries)
            && (Direct(captured, env, h.boundaries) ==> Direct(captured, bound, h.boundaries))
  {
    hide AllStatementsClean, StatementErrors, ContextAt, TypeNames, Declare, DeclareErrors, Captures, Direct, EnvMatches;
    var s, c := stmts[i].Unspanned(), ContextAt(h, stmts, i);
    assert SlotFor(cfg, st, s, slots[i], captured);
    assert SlotSymbol(cfg.types, w.slots, s, slots[i]);
    LetIsNew(h, stmts, i);
    BindMatches(w.slots, env, WithTypes(c, TypeNames(stmts[i])), s.name, slots[i].value, SymbolOf(cfg.types, s));
    BindCaptures(captured, env, h.boundaries, s.name, slots[i].value);
  }

  lemma ReadyFrom(captured: nat, stored: State, after: State, stmts: seq<Stmt>, slots: seq<Option<nat>>, i: nat)
    requires i < |stmts| == |slots| && slots[i].Some? && slots[i].value < |stored.bindings|
    requires stored.bindings[slots[i].value].value.Some? && Evolves(captured, stored, after)
    requires FunctionsReady(after, stmts, slots, i + 1, |stmts|)
    ensures FunctionsReady(after, stmts, slots, i, |stmts|)
  {
    assert KeepsSlot(stored.bindings[slots[i].value], after.bindings[slots[i].value]);
  }

  lemma {:induction false} InstallSound(
    cfg: Config, captured: nat, st: State, w: World, stmts: seq<Stmt>, slots: seq<Option<nat>>, env: Environment, i: nat, h: Context)
    returns (w': World)
    requires Installing(cfg, captured, st, w, stmts, slots, env, i, h)
    ensures var after := Install(cfg, st, stmts, slots, env, i);
            && Lands(cfg, captured, st, w, after, w') && w'.slots == w.slots
            && FunctionsReady(after, stmts, slots, i, |stmts|)
    decreases |stmts| - i
  {
    hide Fits, EnvMatches, Captures, AllStatementsClean, SlotSymbols, Definition, Evolves, DistinctSlots;
    w' := w;
    LandsSame(cfg, captured, st, w);
    if i == |stmts| { return; }
    var s := stmts[i].Unspanned();
    assert SlotFor(cfg, st, s, slots[i], captured);
    if s.Let? {
      InstallLet(cfg, captured, st, w, stmts, slots, env, i, h);
      w' := InstallSound(cfg, captured, st, w, stmts, slots, Bind(env, s.name, slots[i].value), i + 1, h);
    } else if s.Function? {
      var pushed := st.(functions := st.functions + [Definition(cfg, stmts[i], env)]);
      var stored := Store(pushed, slots[i].value, FunctionValue(|st.functions|));
      var w1 := InstallFunction(cfg, captured, st, w, stmts, slots, env, i, h);
      w' := InstallSound(cfg, captured, stored, w1, stmts, slots, env, i + 1, h);
      var after := Install(cfg, stored, stmts, slots, env, i + 1);
      LandsThen(cfg, captured, st, w, stored, w1, after, w');
      ReadyFrom(captured, stored, after, stmts, slots, i);
    } else {
      w' := InstallSound(cfg, captured, st, w, stmts, slots, env, i + 1, h);
    }
  }

  /** After hoisting, every visible name has a value if every outer name had one. */
  lemma HoistedInitialized(
    captured: nat, st: State, after: State, outer: Environment, env: Environment, stmts: seq<Stmt>, slots: seq<Option<nat>>)
    requires Initialized(st, outer) && Evolves(captured, st, after)
    requires OnlyFunctionsAdded(outer, env, stmts, slots) && FunctionsReady(after, stmts, slots, 0, |stmts|)
    ensures Initialized(after, env)
  {
    forall l, n | 0 <= l < |env| && n in env[l]
      ensures env[l][n] < |after.bindings| && after.bindings[env[l][n]].value.Some?
    {
      if n in outer[l] && outer[l][n] == env[l][n] {
        assert KeepsSlot(st.bindings[outer[l][n]], after.bindings[outer[l][n]]);
      }
    }
  }
}
