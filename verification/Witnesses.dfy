/** Accepted programs for what the analyzer does not promise, each run step by step. */
module Witnesses {
  import opened Wrappers
  import opened Ast
  import opened Types
  import opened Values
  import opened Operations
  import opened Analysis
  import opened Evaluation
  import opened Equations
  import opened Programs
  import opened Typing
  import opened Worlds
  import opened Parallel
  import opened OutputRoom

  /** A host that agrees to everything and prints strings as they are. */
  const PLAIN: Library := Library(
    _ => Answer(NullValue, ""),
    (v: Value) => if v.StringValue? then v.text else "",
    (_, a, _) => a,
    _ => [],
    _ => Ok(""))

  const LIMITS: Limits := Limits(16, 8, 8, 1, 2)

  const SETUP: Config := Config([], 0, LIMITS, PLAIN)

  lemma PlainIsOk()
    ensures HostOk(SETUP)
  {
  }

  // ----- small runs -----

  /** A name as the only operand. */
  lemma NameOperand(cfg: Config, f: Frame, st: State, name: string, env: Environment, v: Value)
    requires st.steps > 0 && f.depth < cfg.limits.expressionDepth
    requires LookUp(env, name).Some? && Read(st, LookUp(env, name).value) == Ok(v)
    ensures EvaluateFrom(cfg, f, st, [Identifier(name)], [], Unchecked, env) == Out(st.(steps := st.steps - 1), Ok([v]))
  {
    var after := st.(steps := st.steps - 1);
    assert Evaluate(cfg, f, st, Identifier(name), env) == Out(after, Ok(v));
    hide Evaluate;
    assert [] + [v] == [v];
    assert EvaluateFrom(cfg, f, after, [Identifier(name)], [v], Unchecked, env) == Out(after, Ok([v]));
  }

  lemma ApplyFunction(cfg: Config, f: Frame, st: State, id: nat)
    requires |f.stack| < cfg.limits.callDepth && id < |st.functions| && st.functions[id].parameters == []
    ensures Apply(cfg, f, st, FunctionValue(id), []) == CallFunction(cfg, f, st, st.functions[id], [])
  {
    hide CallFunction;
  }

  /** `f()` where `f` names a function without parameters. */
  lemma CallByName(cfg: Config, f: Frame, st: State, name: string, env: Environment, id: nat)
    requires st.steps >= 2 && f.depth + 1 < cfg.limits.expressionDepth && |f.stack| < cfg.limits.callDepth
    requires LookUp(env, name).Some? && Read(st, LookUp(env, name).value) == Ok(FunctionValue(id))
    requires id < |st.functions| && st.functions[id].parameters == []
    ensures Evaluate(cfg, f, st, Call(Identifier(name), []), env) ==
            CallFunction(cfg, f.(depth := f.depth + 1), st.(steps := st.steps - 2), st.functions[id], [])
  {
    hide CallFunction, EvaluateFrom, LookUp, Evaluate, Apply;
    var g := f.(depth := f.depth + 1);
    CallSteps(cfg, f, st, Identifier(name), [], env);
    assert [Identifier(name)] + [] == [Identifier(name)] && [FunctionValue(id)][1..] == [];
    NameOperand(cfg, g, st.(steps := st.steps - 1), name, env, FunctionValue(id));
    ApplyFunction(cfg, g, st.(steps := st.steps - 2), id);
  }

  lemma LiteralValue(cfg: Config, f: Frame, st: State, i: Integer, env: Environment)
    requires st.steps > 0 && f.depth < cfg.limits.expressionDepth
    ensures Evaluate(cfg, f, st, IntegerLit(i), env) == Out(st.(steps := st.steps - 1), Ok(IntegerValue(i)))
  {
    var g, ticked := f.(depth := f.depth + 1), st.(steps := st.steps - 1);
    assert Operands(IntegerLit(i)) == [];
    assert EvaluateFrom(cfg, g, ticked, [], [], Unchecked, env) == Out(ticked, Ok([]));
    assert Strict(cfg, g, ticked, IntegerLit(i), env) == Out(ticked, Ok(IntegerValue(i)));
  }

  /** A body of one expression. */
  lemma ExpressionBody(cfg: Config, f: Frame, st: State, e: Expr, env: Environment)
    requires st.steps > 0 && env != []
    ensures var o := Evaluate(cfg, f, st.(steps := st.steps - 1), e, env);
            Body(cfg, f, st, Block([ExprStmt(e)]), env) ==
            if o.res.Err? then Out(o.st, Err(o.res.error)) else Out(o.st, Ok(Normal))
  {
    var s, stmts := ExprStmt(e), [ExprStmt(e)];
    var none: seq<Option<nat>> := [];
    assert none + [None] == [None];
    assert Reserve(cfg, st, stmts, env, [None]) == Reserved(st, env, [None]);
    assert Reserve(cfg, st, stmts, env, none) == Reserved(st, env, [None]);
    assert Install(cfg, st, stmts, [None], env, 0) == st;
    hide Evaluate, Reserve, Install;
    var ticked, here := st.(steps := st.steps - 1), f.(span := None.Or(f.span));
    assert here == f;
    ExecuteFromSteps(cfg, f, st, stmts, [None], env, 0);
    ExecuteSteps(cfg, f, ticked, s, env);
    var o := Execute(cfg, f, ticked, s, env);
    assert o.res.Ok? ==> ExecuteFrom(cfg, f, o.st, stmts, [None], env, 1) == Out(o.st, Ok(Normal));
  }

  /** Calling a function whose body is one failing expression fails in its frame. */
  lemma FailingCall(cfg: Config, f: Frame, st: State, callee: FunctionDef, e: Expr)
    requires st.steps > 0 && callee.parameters == [] && callee.body == Block([ExprStmt(e)])
    requires Evaluate(cfg, Enter(f, callee), st.(steps := st.steps - 1), e, callee.closure + [map[]]).res.Err?
    ensures CallFunction(cfg, f, st, callee, []).res.Err?
    ensures CallFunction(cfg, f, st, callee, []).res.error ==
            Evaluate(cfg, Enter(f, callee), st.(steps := st.steps - 1), e, callee.closure + [map[]]).res.error
  {
    hide Evaluate;
    ExpressionBody(cfg, Enter(f, callee), st, e, callee.closure + [map[]]);
    assert BindParameters(cfg, f, st, callee.parameters, [], 0, map[]) == Out(st, Ok(map[]));
  }

  // ----- reading before the initializer -----

  const READER: Stmt := Function("f", [], None, Block([ExprStmt(Identifier("x"))]))

  /** `f(); let x = 1; fn f() { x; }` */
  const EARLY_READ: seq<Stmt> := [ExprStmt(Call(Identifier("f"), [])), Let("x", None, IntegerLit(1)), READER]

  /** Three statements that declare no type. */
  lemma NoTypes(a: Stmt, b: Stmt, c: Stmt)
    requires forall s | s in [a, b, c] :: !s.LocatedStmt? && !s.TypeDecl?
    ensures Definitions([a, b, c]) == []
  {
    var all := [a, b, c];
    assert all[..2] == [a, b] && [a, b][..1] == [a] && [a][..0] == [];
    assert a in all && b in all && c in all;
    assert Definitions([a]) == Definitions([a][..0]) == [];
    assert Definitions([a, b]) == Definitions([a, b][..1]) == [];
    assert Definitions(all) == Definitions(all[..2]) == [];
  }

  lemma ThreeStatements(c: Context, a: Stmt, b: Stmt, d: Stmt)
    ensures var stmts := [a, b, d];
            var h := Hoist(c, stmts, 3);
            BodyErrors(c, Block(stmts)) ==
            HoistErrors(c, stmts, 3) + (([] + StatementErrors(h, a)) + StatementErrors(ContextAt(h, stmts, 1), b)
            + StatementErrors(ContextAt(h, stmts, 2), d))
  {
    hide StatementErrors, Hoist, HoistErrors;
    var stmts := [a, b, d];
    var body, h := Block(stmts), Hoist(c, stmts, 3);
    assert SequenceErrors(h, body, 1) == [] + StatementErrors(h, a);
    assert SequenceErrors(h, body, 2) == SequenceErrors(h, body, 1) + StatementErrors(ContextAt(h, stmts, 1), b);
    assert SequenceErrors(h, body, 3) == SequenceErrors(h, body, 2) + StatementErrors(ContextAt(h, stmts, 2), d);
  }

  lemma OneStatement(c: Context, s: Stmt)
    requires !s.LocatedStmt? && !s.Function?
    ensures BodyErrors(c, Block([s])) == StatementErrors(c, s)
  {
    hide StatementErrors;
    var body := Block([s]);
    assert Hoist(c, [s], 1) == Hoist(c, [s], 0) == c;
    assert HoistErrors(c, [s], 1) == HoistErrors(c, [s], 0) + [] == [];
    assert SequenceErrors(c, body, 1) == SequenceErrors(c, body, 0) + StatementErrors(c, s);
  }

  const FREE: Symbol := FunctionSymbol(0, [], None)

  const TOP_LEVEL: Context := TopContext([])

  /** The top level once `f` is hoisted, and with `x` declared behind it. */
  const HOISTED: Context := TOP_LEVEL.(scopes := [BuiltinScope(), map["f" := FREE]])

  const DECLARED: Context := TOP_LEVEL.(scopes := [BuiltinScope(), map["f" := FREE, "x" := VariableSymbol(None)]])

  lemma HoistingF(s: Stmt)
    requires s.Function? && s.name == "f" && s.parameters == [] && s.result == None
    ensures Declare(TOP_LEVEL, "f", SymbolOfFunction([], s)) == HOISTED
    ensures FunctionHoistErrors(TOP_LEVEL, s) == []
  {
    assert SymbolOfFunction([], s) == FREE;
  }

  lemma DeclaringX()
    ensures AfterStatement(HOISTED, Let("x", None, IntegerLit(0))) == DECLARED
    ensures AfterStatement(HOISTED, Let("x", None, IntegerLit(1))) == DECLARED
    ensures forall i | i in {0, 1} :: StatementErrors(HOISTED, Let("x", None, IntegerLit(i))) == []
  {
    assert HOISTED.declared + {} == {};
  }

  lemma CallOfFIsClean(c: Context)
    requires LookUpSymbol(c.scopes, "f") == Some(FREE)
    ensures StatementErrors(c, ExprStmt(Call(Identifier("f"), []))) == []
  {
    var e := Call(Identifier("f"), []);
    assert Operands(e) == [Identifier("f")];
    assert OperandErrors(c, e, 0, 1) == OperandErrors(c, e, 0, 0) + ExpressionErrors(c, Identifier("f")) == [];
  }

  lemma EarlyReadHoists()
    ensures Hoist(TOP_LEVEL, EARLY_READ, 3) == HOISTED && HoistErrors(TOP_LEVEL, EARLY_READ, 3) == []
  {
    hide BuiltinScope, FunctionHoistErrors, SymbolOfFunction;
    HoistingF(READER);
    assert Hoist(TOP_LEVEL, EARLY_READ, 2) == Hoist(TOP_LEVEL, EARLY_READ, 1) == Hoist(TOP_LEVEL, EARLY_READ, 0) == TOP_LEVEL;
    assert HoistErrors(TOP_LEVEL, EARLY_READ, 2) == HoistErrors(TOP_LEVEL, EARLY_READ, 1) == HoistErrors(TOP_LEVEL, EARLY_READ, 0) == [];
  }

  lemma EarlyReadContexts()
    ensures ContextAt(HOISTED, EARLY_READ, 1) == HOISTED && ContextAt(HOISTED, EARLY_READ, 2) == DECLARED
  {
    hide BuiltinScope;
    DeclaringX();
    assert HOISTED.declared + {} == {};
    assert AfterStatement(HOISTED, EARLY_READ[0]) == HOISTED;
    assert ContextAt(HOISTED, EARLY_READ, 0) == HOISTED;
  }

  lemma EarlyReadIsAccepted()
    ensures Analyze(EARLY_READ) == []
  {
    hide StatementErrors, Hoist, HoistErrors, ContextAt, BuiltinScope;
    var call, x := EARLY_READ[0], EARLY_READ[1];
    assert EARLY_READ == [call, x, READER];
    NoTypes(call, x, READER);
    ThreeStatements(TOP_LEVEL, call, x, READER);
    EarlyReadHoists();
    EarlyReadContexts();
    FIsVisible();
    CallOfFIsClean(HOISTED);
    DeclaringX();
    XIsVisible();
    FunctionIsClean(Identifier("x"));
  }

  lemma FIsVisible()
    ensures LookUpSymbol(HOISTED.scopes, "f") == Some(FREE)
  {
  }

  /** Inside `f`, a scope of its own above the top level. */
  const INSIDE: Context := DECLARED.(scopes := [BuiltinScope(), map["f" := FREE, "x" := VariableSymbol(None)], map[]], functionDepth := 1)

  lemma FunctionIsClean(e: Expr)
    requires ExpressionErrors(INSIDE, e) == []
    ensures StatementErrors(DECLARED, Function("f", [], None, Block([ExprStmt(e)]))) == []
  {
    hide ExpressionErrors, BuiltinScope;
    var s := Function("f", [], None, Block([ExprStmt(e)]));
    assert DECLARED.scopes + [map[]] == INSIDE.scopes;
    assert InsideFunction(DECLARED, s) == INSIDE;
    OneStatement(INSIDE, ExprStmt(e));
  }

  lemma XIsVisible()
    ensures LookUpSymbol(INSIDE.scopes, "x") == Some(VariableSymbol(None))
  {
    assert LookUpDepth(INSIDE.scopes[..2], "x") == Some((1, VariableSymbol(None)));
  }

  /** The slots behind the built-ins: `x` first, then `f`. */
  const GLOBALS: seq<map<string, nat>> := [BuiltinEnvironment()[0], map["f" := 10]]

  const CLOSURE: seq<map<string, nat>> := [BuiltinEnvironment()[0], map["f" := 10, "x" := 9]]

  function Reserved0(): State {
    StartState(SETUP).(bindings := BuiltinBindings() + [Binding(None, None, true), Binding(None, None, false)])
  }

  /** Once `f` is installed with the given body, `x` is reserved and nothing has run. */
  function Installed(body: Stmt): State {
    Reserved0().(
      bindings := BuiltinBindings() + [Binding(None, None, true), Binding(None, Some(FunctionValue(0)), false)],
      functions := [FunctionDef("f", [], None, None, body, CLOSURE)])
  }

  lemma EarlyReadStarts()
    ensures Statements(SETUP, TOP, StartState(SETUP), EARLY_READ, BuiltinEnvironment()) ==
            ExecuteFrom(SETUP, TOP, Installed(READER.body), EARLY_READ, [None, Some(9), Some(10)], GLOBALS, 0)
  {
    hide ExecuteFrom;
    var st, env := StartState(SETUP), BuiltinEnvironment();
    assert |st.bindings| == 9;
    var one := Allocate(st, None, None, true);
    var none: seq<Option<nat>> := [];
    assert none + [None] == [None] && [None] + [Some(9 as nat)] == [None, Some(9 as nat)];
    assert [None, Some(9 as nat)] + [Some(10 as nat)] == [None, Some(9 as nat), Some(10 as nat)];
    var two := Allocate(one, None, None, false);
    assert two == Reserved0();
    assert Bind(env, "f", 10) == GLOBALS;
    var slots := [None, Some(9), Some(10)];
    assert Reserve(SETUP, two, EARLY_READ, GLOBALS, slots) == Reserved(two, GLOBALS, slots);
    assert Reserve(SETUP, one, EARLY_READ, env, [None, Some(9)]) == Reserved(two, GLOBALS, slots);
    assert Reserve(SETUP, st, EARLY_READ, env, [None]) == Reserved(two, GLOBALS, slots);
    assert Reserve(SETUP, st, EARLY_READ, env, none) == Reserved(two, GLOBALS, slots);
    assert Bind(GLOBALS, "x", 9) == CLOSURE;
    var done := Installed(READER.body);
    assert Definition(SETUP, READER, CLOSURE) == done.functions[0];
    var pushed := two.(functions := two.functions + [Definition(SETUP, READER, CLOSURE)]);
    assert Store(pushed, 10, FunctionValue(0)) == done;
    assert Install(SETUP, done, EARLY_READ, slots, CLOSURE, 3) == done;
    assert Install(SETUP, two, EARLY_READ, slots, CLOSURE, 2) == done;
    assert Install(SETUP, two, EARLY_READ, slots, GLOBALS, 1) == done;
    assert Install(SETUP, two, EARLY_READ, slots, GLOBALS, 0) == done;
  }

  lemma EarlyReadFails()
    ensures var o := ExecuteFrom(SETUP, TOP, Installed(READER.body), EARLY_READ, [None, Some(9), Some(10)], GLOBALS, 0);
            o.res.Err? && o.res.error.message == Uninitialized && o.res.error.stack == ["f"]
  {
    hide Evaluate, CallFunction, ExecuteFrom, BuiltinBindings, BuiltinEnvironment;
    var st := Installed(READER.body);
    var f, ticked := st.functions[0], st.(steps := 15);
    NamesF(READER.body);
    assert TOP.(span := None.Or(TOP.span)) == TOP;
    ReadingX(TOP.(depth := 1), st);
    CallByName(SETUP, TOP, ticked, "f", GLOBALS, 0);
    FailingCall(SETUP, TOP.(depth := 1), st.(steps := 13), f, Identifier("x"));
    ExecuteSteps(SETUP, TOP, ticked, EARLY_READ[0], GLOBALS);
    ExecuteFromSteps(SETUP, TOP, st, EARLY_READ, [None, Some(9), Some(10)], GLOBALS, 0);
  }

  lemma NamesF(body: Stmt)
    ensures LookUp(GLOBALS, "f") == Some(10) && Read(Installed(body), 10) == Ok(FunctionValue(0))
  {
    assert |BuiltinBindings()| == 9;
  }

  /** A function may read an earlier `let` before its initializer has run; an accepted program can so end in that error. */
  lemma EarlyReadIsUninitialized()
    ensures HostOk(SETUP) && ExecuteProgram(EARLY_READ, 0, LIMITS, PLAIN) == Ran(RunProgram(SETUP, EARLY_READ))
    ensures var o := RunProgram(SETUP, EARLY_READ);
            && o.res.Err? && o.res.error.message == Uninitialized && o.res.error.stack == ["f"]
            && Allowed(0, o.res.error) && !Harmless(Bare(o.res.error.message))
  {
    hide ExecuteFrom, Statements, Installed, Analyze, MainFunction, HostOk;
    EarlyReadIsAccepted();
    NoTypes(EARLY_READ[0], EARLY_READ[1], READER);
    assert EARLY_READ == [EARLY_READ[0], EARLY_READ[1], READER];
    PlainIsOk();
    EarlyReadStarts();
    EarlyReadFails();
    assert BadMain(EARLY_READ, 3).None? && BadMain(EARLY_READ, 2).None? && BadMain(EARLY_READ, 1).None?;
  }

  lemma ReadingX(f: Frame, st: State)
    requires f.stack == [] && st == Installed(READER.body)
    ensures var o := Evaluate(SETUP, Enter(f, st.functions[0]), st.(steps := 12), Identifier("x"), CLOSURE + [map[]]);
            o.res.Err? && o.res.error.message == Uninitialized && o.res.error.stack == ["f"]
  {
    var env := CLOSURE + [map[]];
    assert env[..2] == CLOSURE;
    assert LookUp(CLOSURE, "x") == Some(9);
    assert LookUp(env, "x") == Some(9);
    assert st.bindings[9].value.None?;
    assert [] + ["f"] == ["f"];
  }

  // ----- writing a captured binding through a call -----

  const WRITE: Expr := Assignment(Identifier("x"), IntegerLit(1))

  const WRITER: Stmt := Function("f", [], None, Block([ExprStmt(WRITE)]))

  const CALLING: Stmt := Block([ExprStmt(Call(Identifier("f"), []))])

  const SPREAD: Stmt := Parallel("y", ArrayLit([IntegerLit(0)]), CALLING)

  /** `let x = 0; fn f() { x = 1; } parallel y in [0] { f(); }` */
  const CAPTURE: seq<Stmt> := [Let("x", None, IntegerLit(0)), WRITER, SPREAD]

  lemma AssignmentToX(c: Context)
    requires LookUpSymbol(c.scopes, "x") == Some(VariableSymbol(None)) && c.boundaries == []
    ensures ExpressionErrors(c, WRITE) == []
  {
    assert Here(c, WRITE.target.Where()) == c;
    assert Operands(WRITE.value) == [];
    assert TargetContract(c, WRITE.target).None?;
    assert AssignmentErrors(c, WRITE) == [];
  }

  lemma SpreadBodyIsClean()
    ensures BodyErrors(IterationContext(DECLARED, SPREAD), CALLING) == []
  {
    hide ExpressionErrors;
    var inside := IterationContext(DECLARED, SPREAD);
    assert inside.scopes == DECLARED.scopes + [map["y" := LoopSymbol]];
    assert LookUpSymbol(inside.scopes, "f") == Some(FREE) by {
      assert inside.scopes[..2] == DECLARED.scopes;
      assert LookUpDepth(DECLARED.scopes, "f") == Some((1, FREE));
    }
    hide IterationContext;
    CallOfFIsClean(inside);
    OneStatement(inside, ExprStmt(Call(Identifier("f"), [])));
  }

  lemma SpreadIsClean()
    ensures StatementErrors(DECLARED, SPREAD) == []
  {
    hide BodyErrors, IterationContext;
    SpreadBodyIsClean();
    assert Operands(SPREAD.iterable) == [IntegerLit(0)];
    assert OperandErrors(DECLARED, SPREAD.iterable, 0, 1) ==
           OperandErrors(DECLARED, SPREAD.iterable, 0, 0) + ExpressionErrors(DECLARED, IntegerLit(0)) == [];
  }

  lemma CaptureIsAccepted()
    ensures Analyze(CAPTURE) == []
  {
    var x := CAPTURE[0];
    NoTypes(x, WRITER, SPREAD);
    ThreeStatements(TOP_LEVEL, x, WRITER, SPREAD);
    assert CAPTURE == [x, WRITER, SPREAD];
    HoistingF(WRITER);
    assert Hoist(TOP_LEVEL, CAPTURE, 1) == Hoist(TOP_LEVEL, CAPTURE, 0) == TOP_LEVEL;
    assert Hoist(TOP_LEVEL, CAPTURE, 3) == Hoist(TOP_LEVEL, CAPTURE, 2) == HOISTED;
    assert HoistErrors(TOP_LEVEL, CAPTURE, 1) == HoistErrors(TOP_LEVEL, CAPTURE, 0) == [];
    assert HoistErrors(TOP_LEVEL, CAPTURE, 2) == [];
    assert HoistErrors(TOP_LEVEL, CAPTURE, 3) == [];
    DeclaringX();
    assert ContextAt(HOISTED, CAPTURE, 0) == HOISTED;
    assert ContextAt(HOISTED, CAPTURE, 1) == DECLARED;
    hide StatementErrors;
    NoNames(WRITER);
    assert ContextAt(HOISTED, CAPTURE, 2) == DECLARED;
    XIsVisible();
    AssignmentToX(INSIDE);
    FunctionIsClean(WRITE);
    SpreadIsClean();
  }

  lemma NoNames(s: Stmt)
    requires s == WRITER
    ensures AfterStatement(DECLARED, s) == DECLARED
  {
    assert BlockTypeNames(WRITER.body, 1) == BlockTypeNames(WRITER.body, 0) + {} == {};
    assert TypeNames(s) == {};
  }

  lemma CaptureStarts()
    ensures Statements(SETUP, TOP, StartState(SETUP), CAPTURE, BuiltinEnvironment()) ==
            ExecuteFrom(SETUP, TOP, Installed(WRITER.body), CAPTURE, [Some(9), Some(10), None], GLOBALS, 0)
  {
    hide ExecuteFrom;
    var st, env := StartState(SETUP), BuiltinEnvironment();
    assert |st.bindings| == 9;
    var one := Allocate(st, None, None, true);
    var two := Allocate(one, None, None, false);
    var nine: Option<nat>, ten: Option<nat>, no: Option<nat> := Some(9), Some(10), None;
    var none: seq<Option<nat>> := [];
    assert none + [nine] == [nine] && [nine] + [ten] == [nine, ten] && [nine, ten] + [no] == [nine, ten, no];
    assert two == Reserved0();
    assert Bind(env, "f", 10) == GLOBALS;
    var slots := [nine, ten, no];
    assert Reserve(SETUP, two, CAPTURE, GLOBALS, slots) == Reserved(two, GLOBALS, slots);
    assert Reserve(SETUP, two, CAPTURE, GLOBALS, [nine, ten]) == Reserved(two, GLOBALS, slots);
    assert Reserve(SETUP, one, CAPTURE, env, [nine]) == Reserved(two, GLOBALS, slots);
    assert Reserve(SETUP, st, CAPTURE, env, none) == Reserved(two, GLOBALS, slots);
    assert Bind(GLOBALS, "x", 9) == CLOSURE;
    var done := Installed(WRITER.body);
    assert Definition(SETUP, WRITER, CLOSURE) == done.functions[0];
    var pushed := two.(functions := two.functions + [Definition(SETUP, WRITER, CLOSURE)]);
    assert Store(pushed, 10, FunctionValue(0)) == done;
    assert Install(SETUP, done, CAPTURE, slots, CLOSURE, 3) == done;
    assert Install(SETUP, done, CAPTURE, slots, CLOSURE, 2) == done;
    assert Install(SETUP, two, CAPTURE, slots, CLOSURE, 1) == done;
    assert Install(SETUP, two, CAPTURE, slots, GLOBALS, 0) == done;
  }

  /** The state in which the worker is spawned, but for its steps. */
  function Ready(): State {
    Installed(WRITER.body).(
      bindings := BuiltinBindings() + [Binding(None, Some(IntegerValue(0)), true), Binding(None, Some(FunctionValue(0)), false)])
  }

  lemma XIsInitialized()
    ensures RunLet(SETUP, TOP, Installed(WRITER.body).(steps := 15), Some(9), IntegerLit(0), GLOBALS) ==
            Out(Ready().(steps := 14), Ok(()))
  {
    var st := Installed(WRITER.body).(steps := 14);
    assert |BuiltinBindings()| == 9;
    LiteralValue(SETUP, TOP, st.(steps := 15), 0, GLOBALS);
    hide Evaluate;
    assert Store(st, 9, IntegerValue(0)) == Ready().(steps := 14);
  }

  /** A function declaration does nothing when it is its turn. */
  lemma DeclarationRuns(stmts: seq<Stmt>, st: State, slots: seq<Option<nat>>, env: Environment)
    requires st.steps > 0 && |stmts| == |slots| == 3 && stmts[1] == WRITER && slots[1] == Some(10)
    ensures ExecuteFrom(SETUP, TOP, st, stmts, slots, env, 1) ==
            ExecuteFrom(SETUP, TOP, st.(steps := st.steps - 1), stmts, slots, env, 2)
  {
    assert TOP.(span := None.Or(TOP.span)) == TOP;
    hide Execute, ExecuteFrom, BuiltinEnvironment;
    ExecuteSteps(SETUP, TOP, st.(steps := st.steps - 1), WRITER, env);
    ExecuteFromSteps(SETUP, TOP, st, stmts, slots, env, 1);
  }

  lemma CaptureReachesParallel()
    ensures ExecuteFrom(SETUP, TOP, Installed(WRITER.body), CAPTURE, [Some(9), Some(10), None], GLOBALS, 0) ==
            ExecuteFrom(SETUP, TOP, Ready().(steps := 13), CAPTURE, [Some(9), Some(10), None], CLOSURE, 2)
  {
    assert TOP.(span := None.Or(TOP.span)) == TOP && Bind(GLOBALS, "x", 9) == CLOSURE;
    XIsInitialized();
    assert Installed(WRITER.body).steps == 16;
    hide RunLet, Execute, ExecuteFrom, Ready, Installed, BuiltinEnvironment, Bind;
    ExecuteFromSteps(SETUP, TOP, Installed(WRITER.body), CAPTURE, [Some(9), Some(10), None], GLOBALS, 0);
    DeclarationRuns(CAPTURE, Ready().(steps := 14), [Some(9), Some(10), None], CLOSURE);
  }

  /** The assignment inside `f`, called from the worker. */
  lemma WriteIsRefused(f: Frame, st: State)
    requires f.depth == 0 && f.captured == 11 && f.stack == ["f"]
    requires st.steps >= 2 && |st.bindings| > 9 && st.bindings[9].mutable
    ensures var o := Evaluate(SETUP, f, st, WRITE, CLOSURE + [map[]]);
            o.res.Err? && o.res.error.message == ReadOnlyCapture && o.res.error.stack == ["f"]
  {
    var env := CLOSURE + [map[]];
    assert env[..2] == CLOSURE;
    assert LookUp(CLOSURE, "x") == Some(9);
    assert LookUp(env, "x") == Some(9);
    var g, ticked := f.(depth := 1), st.(steps := st.steps - 1);
    assert Target(SETUP, g, ticked, Identifier("x"), env) == Out(st.(steps := st.steps - 2), Ok(Place(9, [])));
    assert Assign(SETUP, g, ticked, Identifier("x"), IntegerLit(1), env).res ==
           Err(RuntimeError(ReadOnlyCapture, ["f"], f.span));
  }

  lemma WorkerIsRefused(host: HostState)
    ensures var o := Worker(SETUP, TOP, Snap(Ready()), 9, host, IntegerValue(0), "y", CALLING, CLOSURE);
            o.res.Err? && o.res.error.message == ReadOnlyCapture && o.res.error.stack == ["f"]
  {
    var snapshot := Snap(Ready());
    var st, env := WorkerStart(snapshot, 9, host, IntegerValue(0)), CLOSURE + [map["y" := 11]];
    var f, callee := WorkerFrame(TOP, snapshot), st.functions[0];
    assert |BuiltinBindings()| == 9 && |snapshot.bindings| == 11;
    assert env[..2] == CLOSURE;
    assert LookUp(CLOSURE, "f") == Some(10);
    assert LookUp(env, "f") == Some(10) && Read(st.(steps := 8), 10) == Ok(FunctionValue(0));
    assert st.bindings[9].mutable;
    assert [] + ["f"] == ["f"];
    hide Evaluate, CallFunction, Body, BuiltinBindings;
    WriteIsRefused(Enter(f.(depth := 1), callee), st.(steps := 5));
    FailingCall(SETUP, f.(depth := 1), st.(steps := 6), callee, WRITE);
    CallByName(SETUP, f, st.(steps := 8), "f", env, 0);
    ExpressionBody(SETUP, f, st, Call(Identifier("f"), []), env);
  }

  /** `[0]` takes two steps. */
  lemma OneElement(cfg: Config, f: Frame, st: State, env: Environment)
    requires st.steps >= 2 && f.depth + 1 < cfg.limits.expressionDepth
    ensures Evaluate(cfg, f, st, ArrayLit([IntegerLit(0)]), env) ==
            Out(st.(steps := st.steps - 2), Ok(ArrayValue([IntegerValue(0)])))
  {
    var e, g := ArrayLit([IntegerLit(0)]), f.(depth := f.depth + 1);
    var one, two := st.(steps := st.steps - 1), st.(steps := st.steps - 2);
    assert Operands(e) == [IntegerLit(0)] && CheckOf(cfg, e) == Unchecked && Refusal(cfg, e).None? && IsStrict(e);
    OneOperand(cfg, g, one, env);
    assert Combine(cfg, g, two, e, [IntegerValue(0)]) == Out(two, Ok(ArrayValue([IntegerValue(0)])));
    hide Evaluate, EvaluateFrom, Inner, Strict, Combine, Refusal, CheckOf;
    EvaluateSteps(cfg, f, st, e, env);
    StrictInner(cfg, g, one, e, env);
    StrictSteps(cfg, g, one, e, env);
  }

  lemma OneOperand(cfg: Config, f: Frame, st: State, env: Environment)
    requires st.steps > 0 && f.depth < cfg.limits.expressionDepth
    ensures EvaluateFrom(cfg, f, st, [IntegerLit(0)], [], Unchecked, env) ==
            Out(st.(steps := st.steps - 1), Ok([IntegerValue(0)]))
  {
    LiteralValue(cfg, f, st, 0, env);
    hide Evaluate;
    assert [] + [IntegerValue(0)] == [IntegerValue(0)];
    var after := st.(steps := st.steps - 1);
    assert EvaluateFrom(cfg, f, after, [IntegerLit(0)], [IntegerValue(0)], Unchecked, env) == Out(after, Ok([IntegerValue(0)]));
  }

  /** A `parallel` over one item, on a host that agrees to fork: fork, run, replay. */
  lemma OneFork(cfg: Config, f: Frame, st: State, variable: string, body: Stmt, env: Environment)
    requires st.steps > 0 && cfg.lib == PLAIN && cfg.limits.workers == 1
    ensures var asked := st.host.(history := st.host.history + [Fork]);
            var host := HostState(asked.history + [Forked], None);
            var snapshot, value := Snap(st), IntegerValue(0);
            var o := Worker(cfg, f, snapshot, st.steps - 1, host, value, variable, body, env);
            var (next, error) := Replay(cfg, f, asked, [WorkerOutcome(f, o, 0)], 0, None);
            error.Some? ==>
              Batches(cfg, f, st, snapshot, variable, [value], 0, Width(cfg, f), body, env) ==
              Out(st.(steps := o.st.steps, host := next), Err(error.value))
  {
    hide Worker, WorkerOutcome, WorkersFrom, Replay;
    var asked := st.host.(history := st.host.history + [Fork]);
    var host := HostState(asked.history + [Forked], None);
    var snapshot, value, forked := Snap(st), IntegerValue(0), st.(steps := st.steps - 1, host := asked);
    var hosts: seq<HostState> := [];
    assert hosts + [host] == [host];
    assert ForkFrom(cfg, f, forked, 1, [host]) == Out(forked, Ok([host]));
    assert ForkFrom(cfg, f, st, 1, hosts) == Out(forked, Ok([host]));
    var o := Worker(cfg, f, snapshot, st.steps - 1, host, value, variable, body, env);
    OneWorker(cfg, f, forked, snapshot, variable, value, 0, host, body, env);
    assert [value][0..1] == [value];
    var b := Batch(cfg, f, st, snapshot, variable, [value], 0, body, env);
    assert Width(cfg, f) == 1;
    assert b.res.Err? ==> Batches(cfg, f, st, snapshot, variable, [value], 0, 1, body, env) == b;
  }

  /** At the top level the plain host prints every line, so a worker's error is the one that is reported. */
  lemma ReplayOne(cfg: Config, f: Frame, h: HostState, outcome: Outcome)
    requires cfg.lib == PLAIN && h.buffer.None?
    ensures Replay(cfg, f, h, [outcome], 0, None).1 == outcome.error
  {
    hide PrintFrom, Utf8Length;
    PrintsAll(cfg, f, h, outcome.lines, 0, 0);
    var (next, failure) := PrintFrom(cfg, f, h, outcome.lines, 0);
    assert Replay(cfg, f, next, [outcome], 1, None.Or(failure).Or(outcome.error)).1 == outcome.error;
  }

  lemma SpreadFails()
    ensures var st := Ready().(steps := 10);
            var o := Batches(SETUP, TOP, st, Snap(st), "y", [IntegerValue(0)], 0, Width(SETUP, TOP), CALLING, CLOSURE);
            o.res.Err? && o.res.error.message == Iteration(1, ReadOnlyCapture) && o.res.error.stack == ["f"]
  {
    hide Worker, Batches, Replay, BuiltinBindings;
    var st := Ready().(steps := 10);
    var asked := st.host.(history := st.host.history + [Fork]);
    var host := HostState(asked.history + [Forked], None);
    WorkerIsRefused(host);
    var o := Worker(SETUP, TOP, Snap(st), 9, host, IntegerValue(0), "y", CALLING, CLOSURE);
    ReplayOne(SETUP, TOP, asked, WorkerOutcome(TOP, o, 0));
    OneFork(SETUP, TOP, st, "y", CALLING, CLOSURE);
  }

  lemma CaptureFails()
    ensures var o := ExecuteFrom(SETUP, TOP, Ready().(steps := 13), CAPTURE, [Some(9), Some(10), None], CLOSURE, 2);
            o.res.Err? && o.res.error.message == Iteration(1, ReadOnlyCapture) && o.res.error.stack == ["f"]
  {
    hide Evaluate, ExecuteFrom, Batches, Ready;
    var st := Ready();
    assert TOP.(span := None.Or(TOP.span)) == TOP;
    SpreadFails();
    OneElement(SETUP, TOP, st.(steps := 12), CLOSURE);
    ExecuteSteps(SETUP, TOP, st.(steps := 12), SPREAD, CLOSURE);
    ExecuteFromSteps(SETUP, TOP, st.(steps := 13), CAPTURE, [Some(9), Some(10), None], CLOSURE, 2);
  }

  /** A function called inside a worker may assign to what the worker captured; an accepted program can so end in that error. */
  lemma CapturedWriteIsRefused()
    ensures HostOk(SETUP) && ExecuteProgram(CAPTURE, 0, LIMITS, PLAIN) == Ran(RunProgram(SETUP, CAPTURE))
    ensures var o := RunProgram(SETUP, CAPTURE);
            && o.res.Err? && o.res.error.message == Iteration(1, ReadOnlyCapture) && o.res.error.stack == ["f"]
            && Allowed(0, o.res.error) && !Harmless(Bare(o.res.error.message))
  {
    hide ExecuteFrom, Statements, Installed, Ready, Analyze, MainFunction, HostOk;
    CaptureIsAccepted();
    NoTypes(CAPTURE[0], WRITER, SPREAD);
    assert CAPTURE == [CAPTURE[0], WRITER, SPREAD];
    PlainIsOk();
    CaptureStarts();
    CaptureReachesParallel();
    CaptureFails();
    assert BadMain(CAPTURE, 3).None? && BadMain(CAPTURE, 2).None? && BadMain(CAPTURE, 1).None?;
  }
}
