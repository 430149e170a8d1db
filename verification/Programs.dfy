/** Whole programs (src/interpreter/mod.rs). */
module Programs {
  import opened Wrappers
  import opened Ast
  import opened Types
  import opened Values
  import opened Operations
  import opened Analysis
  import opened Evaluation
  import opened Typing
  import opened Worlds
  import opened Lists
  import opened Soundness
  import opened Schedule

  const BUILTINS: seq<Builtin> := [BytesOf, EncodeUtf8, DecodeUtf8, ByteLen, Close, SetTimeout, Accept, LocalAddress]

  function BuiltinBindings(): seq<Binding> {
    [Binding(None, Some(PrintValue), false)]
    + seq(8, i requires 0 <= i < 8 => Binding(None, Some(BuiltinValue(BUILTINS[i])), false))
  }

  function BuiltinEnvironment(): Environment {
    [map["print" := 0, "bytes" := 1, "encode_utf8" := 2, "decode_utf8" := 3, "byte_len" := 4,
         "close" := 5, "set_timeout" := 6, "accept" := 7, "local_address" := 8],
     map[]]
  }

  function StartState(cfg: Config): State {
    State(BuiltinBindings(), [], cfg.limits.steps, HostState([], None))
  }

  const TOP: Frame := Frame(0, [], None, None, 0, false)

  /** The first top-level `main` that takes parameters. */
  function BadMain(statements: seq<Stmt>, from: nat): (bad: Option<nat>)
    ensures bad.Some? ==> bad.value < |statements|
    decreases |statements| - from
  {
    if from >= |statements| then None
    else
      var s := statements[from].Unspanned();
      if s.Function? && s.name == "main" && s.parameters != [] then Some(from) else BadMain(statements, from + 1)
  }

  predicate DeclaresMain(s: Stmt) {
    s.Unspanned().Function? && s.Unspanned().name == "main"
  }

  /** The function a hoisted top-level `main` is bound to. */
  function MainFunction(cfg: Config, statements: seq<Stmt>, after: State): Option<Value> {
    var env := Reserve(cfg, StartState(cfg), statements, BuiltinEnvironment(), []).env;
    if (exists i | 0 <= i < |statements| :: DeclaresMain(statements[i]))
       && env != [] && "main" in env[|env| - 1]
       && env[|env| - 1]["main"] < |after.bindings|
       && after.bindings[env[|env| - 1]["main"]].value.Some?
       && after.bindings[env[|env| - 1]["main"]].value.value.FunctionValue?
    then after.bindings[env[|env| - 1]["main"]].value
    else None
  }

  /** What an accepted program does. */
  function RunProgram(cfg: Config, statements: seq<Stmt>): Out<Value> {
    var st := StartState(cfg);
    var bad := BadMain(statements, 0);
    if bad.Some? then Fail(TOP.(span := statements[bad.value].Where()), st, EntryPointParameters)
    else
      var o := Statements(cfg, TOP, st, statements, BuiltinEnvironment());
      match o.res
      case Err(error) => Out(o.st, Err(error))
      case Ok(_) =>
        var main := MainFunction(cfg, statements, o.st);
        if main.Some? then Apply(cfg, TOP, o.st, main.value, []) else Out(o.st, Ok(NullValue))
  }

  datatype Execution = Rejected(errors: Errors) | Misconfigured(message: Message) | Ran(out: Out<Value>)

  /** `execute_with_limits`: semantic errors first, then the worker limit, then the run. */
  ghost function ExecuteProgram(statements: seq<Stmt>, identity: nat, limits: Limits, lib: Library): Execution {
    var errors := Analyze(statements);
    if errors != [] then Rejected(errors)
    else if !(1 <= limits.workers <= 64) then Misconfigured(WorkerLimit)
    else Ran(RunProgram(Config(Definitions(statements), identity, limits, lib), statements))
  }

  // ----- accepted type declarations -----

  /** Every definition comes from a top-level declaration. */
  lemma {:induction false} DefinitionSource(statements: seq<Stmt>, k: nat) returns (i: nat)
    requires k < |Definitions(statements)|
    ensures i < |statements| && statements[i].Unspanned().TypeDecl?
    ensures Definitions(statements)[k] == TypeDef(statements[i].Unspanned().name, statements[i].Unspanned().fields)
  {
    var front := statements[..|statements| - 1];
    if k < |Definitions(front)| {
      i := DefinitionSource(front, k);
      assert front[i] == statements[i];
    } else {
      i := |statements| - 1;
    }
  }

  lemma {:induction false} TypeFieldClean(c: Context, fields: seq<TypeField>, n: nat, k: nat)
    requires n <= |fields| && TypeFieldErrors(c, fields, n) == [] && k < n
    ensures Resolve(c.types, fields[k].annotation.name).Some?
    ensures forall i | 0 <= i < k :: fields[i].name != fields[k].name
    decreases n
  {
    hide Resolve;
    if k < n - 1 {
      TypeFieldClean(c, fields, n - 1, k);
    }
  }

  lemma DeclarationClean(c: Context, name: string, fields: seq<TypeField>)
    requires TypeDeclErrors(c, name, fields) == []
    ensures DefinitionOk(c.types, TypeDef(name, fields)) && !CyclicName(c.types, name)
  {
    hide TypeFieldErrors, IsReserved, CyclicName, Resolve;
    forall k | 0 <= k < |fields|
      ensures Resolve(c.types, fields[k].annotation.name).Some?
      ensures forall i | 0 <= i < k :: fields[i].name != fields[k].name
    {
      TypeFieldClean(c, fields, |fields|, k);
    }
  }

  lemma TopClean(statements: seq<Stmt>)
    requires Analyze(statements) == []
    ensures var c := TopContext(Definitions(statements));
            && HoistErrors(c, statements, |statements|) == []
            && AllStatementsClean(Hoist(c, statements, |statements|), statements)
  {
    hide HoistErrors, SequenceErrors, StatementErrors, Definitions, TopContext, Hoist, ContextAt;
    var c := TopContext(Definitions(statements));
    var h := Hoist(c, statements, |statements|);
    forall k | 0 <= k < |statements|
      ensures StatementErrors(ContextAt(h, statements, k), statements[k]) == []
    {
      SequenceClean(h, Block(statements), |statements|, k);
    }
  }

  lemma OwnName(types: seq<TypeDef>, k: nat)
    requires DistinctNames(types) && k < |types| && !IsReserved(types[k].name)
    ensures Resolve(types, types[k].name) == Some(Named(k))
  {
  }

  /** The declarations of an accepted program are usable as types, and none requires itself. */
  lemma AcceptedTypes(statements: seq<Stmt>)
    requires Analyze(statements) == []
    ensures RegistryOk(Definitions(statements)) && Acyclic(Definitions(statements))
  {
    hide DefinitionOk, IsReserved, CyclicName, Reaches, HoistErrors, StatementErrors, Analyze, TypeDeclErrors;
    var types := Definitions(statements);
    var c := TopContext(types);
    var h := Hoist(c, statements, |statements|);
    TopClean(statements);
    DefinitionsDistinct(statements);
    forall k: nat | k < |types|
      ensures DefinitionOk(types, types[k]) && !Reaches(types, k, k)
    {
      AcceptedType(statements, k);
    }
  }

  lemma AcceptedType(statements: seq<Stmt>, k: nat)
    requires Analyze(statements) == [] && k < |Definitions(statements)|
    ensures DefinitionOk(Definitions(statements), Definitions(statements)[k])
    ensures !Reaches(Definitions(statements), k, k)
  {
    hide Definitions, IsReserved, Resolve, Reaches, HoistErrors, Analyze, TypeDeclErrors, ContextAt, Hoist;
    var types := Definitions(statements);
    var c := TopContext(types);
    var h := Hoist(c, statements, |statements|);
    TopClean(statements);
    DefinitionsDistinct(statements);
    var i := DefinitionSource(statements, k);
    var u := UnderSpan(ContextAt(h, statements, i), statements[i]);
    HoistKeeps(c, statements, |statements|);
    ContextAtKeeps(h, statements, i);
    assert StatementErrors(ContextAt(h, statements, i), statements[i]) == [];
    UnwrappedErrors(ContextAt(h, statements, i), statements[i]);
    DeclarationClean(u, types[k].name, types[k].fields);
    OwnName(types, k);
  }

  // ----- the initial program point -----

  function BuiltinSymbols(): seq<Symbol> {
    var one := FunctionSymbol(1, [], None);
    [BuiltinSymbol, one, one, one, one, one, FunctionSymbol(2, [], None), one, one]
  }

  lemma BuiltinsMatch()
    ensures EnvMatches(BuiltinSymbols(), BuiltinEnvironment(), TopContext([]).scopes)
  {
    assert ScopeMatches(BuiltinSymbols(), BuiltinEnvironment()[0], BuiltinScope());
  }

  lemma StartPoint(cfg: Config)
    requires RegistryOk(cfg.types) && HostOk(cfg)
    ensures Point(cfg, 0, TOP, StartState(cfg), World(BuiltinSymbols(), []), BuiltinEnvironment(), TopContext(cfg.types))
  {
    hide RegistryOk, HostOk, EnvMatches;
    BuiltinsMatch();
    BuiltinsInitialized(StartState(cfg));
  }

  lemma BuiltinsInitialized(st: State)
    requires st.bindings == BuiltinBindings()
    ensures Initialized(st, BuiltinEnvironment())
  {
  }

  // ----- the theorems -----

  /**
   * Soundness of the analyzer for whole runs: an accepted program ends in a
   * state that fits its world, its top level finishes normally, and an error it
   * ends with is one of the allowed ones.
   */
  lemma AcceptedProgramsAreSound(cfg: Config, statements: seq<Stmt>) returns (w: World)
    requires Analyze(statements) == [] && cfg.types == Definitions(statements) && HostOk(cfg)
    ensures var o := RunProgram(cfg, statements);
            && Fits(cfg, 0, o.st, w)
            && (o.res.Err? ==> Allowed(0, o.res.error))
            && (o.res.Ok? ==> WellTyped(cfg.types, cfg.identity, o.res.value))
    ensures var top := Statements(cfg, TOP, StartState(cfg), statements, BuiltinEnvironment());
            top.res.Ok? ==> top.res.value == Normal
  {
    hide Analyze, Definitions, Point, Fits, Lands, WellTyped, HoistErrors, AllStatementsClean, RegistryOk, HostOk, Statements, Apply;
    AcceptedTypes(statements);
    TopClean(statements);
    StartPoint(cfg);
    var st, env, c := StartState(cfg), BuiltinEnvironment(), TopContext(cfg.types);
    var w0 := World(BuiltinSymbols(), []);
    PointFacts(cfg, 0, TOP, st, w0, env, c);
    w := SoundStatements(cfg, 0, TOP, st, w0, statements, env, c);
    var o := Statements(cfg, TOP, st, statements, env);
    LandsGrows(cfg, 0, st, w0, o.st, w);
    if BadMain(statements, 0).Some? {
      w := w0;
      return;
    }
    if o.res.Err? { return; }
    NullWellTyped(cfg);
    Stays(cfg, 0, TOP, st, w0, env, c, o.st, w);
    var main := MainFunction(cfg, statements, o.st);
    if main.Some? {
      var w1 := w;
      w := SoundApply(cfg, 0, TOP, o.st, w1, main.value, [], env, c);
      LandsGrows(cfg, 0, o.st, w1, Apply(cfg, TOP, o.st, main.value, []).st, w);
    }
  }

  /** Soundness does not depend on the order of the workers: after any interleaving each report is an allowed one. */
  lemma EveryInterleavingIsSound(
    cfg: Config, base: nat, f: Frame, st: State, w: World, s: Stmt, values: seq<Value>, first: nat, hosts: seq<HostState>,
    body: Stmt, env: Environment, c: Context, budget: nat, schedule: seq<nat>)
    requires Point(cfg, base, f, st, w, env, c) && s.Parallel? && AllWellTyped(cfg, values) && |hosts| == |values|
    requires BodyErrors(IterationContext(c, s), body) == []
    ensures var jobs := JobsOf(cfg, f, Snap(st), s.variable, values, first, hosts, body, env);
            var outcomes := Reports(jobs, Interleave(jobs, budget, schedule));
            forall i | 0 <= i < |outcomes| && outcomes[i].error.Some? :: Allowed(base, outcomes[i].error.value)
  {
    hide Point, Interleave, BodyErrors, WorkerOutcome, Worker, Allowed, WellTyped, IterationContext;
    var jobs := JobsOf(cfg, f, Snap(st), s.variable, values, first, hosts, body, env);
    var m := Interleave(jobs, budget, schedule);
    forall i | 0 <= i < |jobs|
      ensures Reports(jobs, m)[i].error.Some? ==> Allowed(base, Reports(jobs, m)[i].error.value)
    {
      SoundWorker(cfg, base, f, st, w, s, m.granted[i], hosts[i], values[i], body, env, c, first + i);
    }
  }

  /** A site that the analyzer flags as a mismatch fails its runtime check whenever its expression has a value. */
  lemma FlaggedSitesFail(
    cfg: Config, base: nat, f: Frame, st: State, w: World, e: Expr, env: Environment, c: Context, expected: ResolvedType)
    requires Point(cfg, base, f, st, w, env, c) && ExpressionErrors(c, e) == [] && InRange(c.types, expected)
    requires KnownType(c.types, c.scopes, e).Some? && Evaluate(cfg, f, st, e, env).res.Ok?
    ensures CheckTypeErrors(c, e, expected) != []
       <==> CheckType(cfg, Some(expected), Evaluate(cfg, f, st, e, env).res.value).Some?
  {
    hide RegistryOk, Lands, Fits, HasName;
    PointFacts(cfg, base, f, st, w, env, c);
    var _ := SoundEvaluate(cfg, base, f, st, w, e, env, c);
    var v := Evaluate(cfg, f, st, e, env).res.value;
    NameDecidesCheck(cfg.types, cfg.identity, v, KnownType(c.types, c.scopes, e).value, expected);
  }
}
