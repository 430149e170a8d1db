/**
 * Two runs that differ only in locations and in the host they were forked from
 * go through the same values, errors, output and remaining steps. Erasing the
 * locations of a program therefore preserves its meaning, and a worker does not
 * depend on what its host did before the fork.
 */
module Simulation {
  import opened Wrappers
  import opened Ast
  import opened Types
  import opened Values
  import opened Operations
  import opened Evaluation
  import opened Equations
  import opened Erasure

  // ----- when two states are alike -----

  /** What two hosts did before they were compared. */
  datatype Origin = Origin(left: seq<HostCall>, right: seq<HostCall>)

  /** From these origins on, the same calls get the same replies. */
  ghost predicate Interchangeable(cfg: Config, o: Origin) {
    forall calls :: cfg.lib.reply(o.left + calls) == cfg.lib.reply(o.right + calls)
  }

  /** Hosts that have done the same since their origins. */
  ghost predicate Alike(cfg: Config, o: Origin, h: HostState, k: HostState) {
    && Interchangeable(cfg, o)
    && h.buffer == k.buffer
    && o.left <= h.history && o.right <= k.history && h.history[|o.left|..] == k.history[|o.right|..]
  }

  predicate ErasedFunction(a: FunctionDef, b: FunctionDef) {
    b.name == a.name && b.parameters == a.parameters && b.result == a.result && b.closure == a.closure
    && b.body == EraseStmt(a.body)
  }

  predicate ErasedFunctions(a: seq<FunctionDef>, b: seq<FunctionDef>) {
    |a| == |b| && forall i | 0 <= i < |a| :: ErasedFunction(a[i], b[i])
  }

  ghost predicate SameState(cfg: Config, o: Origin, a: State, b: State) {
    a.bindings == b.bindings && a.steps == b.steps && ErasedFunctions(a.functions, b.functions) && Alike(cfg, o, a.host, b.host)
  }

  predicate SameFrame(f: Frame, g: Frame) {
    g == f.(span := g.span)
  }

  predicate SameError(a: RuntimeError, b: RuntimeError) {
    a.message == b.message && a.stack == b.stack
  }

  predicate SameResult<T(==)>(a: Result<T, RuntimeError>, b: Result<T, RuntimeError>) {
    if a.Ok? then b == a else b.Err? && SameError(a.error, b.error)
  }

  ghost predicate SameOut<T>(cfg: Config, o: Origin, a: Out<T>, b: Out<T>) {
    SameState(cfg, o, a.st, b.st) && SameResult(a.res, b.res)
  }

  // ----- steps that are not recursive -----

  lemma AskAlike(cfg: Config, o: Origin, h: HostState, k: HostState, call: HostCall)
    requires Alike(cfg, o, h, k)
    ensures Alike(cfg, o, Ask(cfg, h, call).0, Ask(cfg, k, call).0)
    ensures Ask(cfg, h, call).1 == Ask(cfg, k, call).1
  {
    var since := h.history[|o.left|..];
    var calls := since + [call];
    assert h.history + [call] == o.left + calls;
    assert k.history + [call] == o.right + calls;
    assert (h.history + [call])[|o.left|..] == calls == (k.history + [call])[|o.right|..];
    assert cfg.lib.reply(o.left + calls) == cfg.lib.reply(o.right + calls);
  }

  lemma PrintAlike(cfg: Config, o: Origin, h: HostState, k: HostState, text: string)
    requires Alike(cfg, o, h, k)
    ensures Alike(cfg, o, Print(cfg, h, text).0, Print(cfg, k, text).0)
    ensures Print(cfg, h, text).1 == Print(cfg, k, text).1
  {
    hide Utf8Length;
    AskAlike(cfg, o, h, k, PrintLine(text));
  }

  lemma HostResultSame(cfg: Config, o: Origin, f: Frame, g: Frame, a: State, b: State, call: HostCall)
    requires SameFrame(f, g) && SameState(cfg, o, a, b)
    ensures SameOut(cfg, o, HostResult(cfg, f, a, call), HostResult(cfg, g, b, call))
  {
    hide Alike, ErasedFunctions;
    AskAlike(cfg, o, a.host, b.host, call);
  }

  lemma EffectSame(cfg: Config, o: Origin, f: Frame, g: Frame, a: State, b: State, op: EffectOp, values: seq<Value>)
    requires SameFrame(f, g) && SameState(cfg, o, a, b)
    ensures SameOut(cfg, o, EffectResult(cfg, f, a, op, values), EffectResult(cfg, g, b, op, values))
  {
    hide Alike, ErasedFunctions, HostResult;
    forall call
      ensures SameOut(cfg, o, HostResult(cfg, f, a, call), HostResult(cfg, g, b, call))
    {
      HostResultSame(cfg, o, f, g, a, b, call);
    }
  }

  lemma BuiltinSame(cfg: Config, o: Origin, f: Frame, g: Frame, a: State, b: State, builtin: Builtin, args: seq<Value>)
    requires SameFrame(f, g) && SameState(cfg, o, a, b)
    ensures SameOut(cfg, o, BuiltinResult(cfg, f, a, builtin, args), BuiltinResult(cfg, g, b, builtin, args))
  {
    hide Alike, ErasedFunctions, HostResult;
    forall call
      ensures SameOut(cfg, o, HostResult(cfg, f, a, call), HostResult(cfg, g, b, call))
    {
      HostResultSame(cfg, o, f, g, a, b, call);
    }
  }

  lemma PureErased(cfg: Config, e: Expr, values: seq<Value>)
    requires IsStrict(e) && |values| == |Operands(e)|
    ensures IsStrict(Erase(e)) && |Operands(Erase(e))| == |Operands(e)|
    ensures PureResult(cfg, Erase(e), values) == PureResult(cfg, e, values)
  {
    hide ToMap, UnaryResult, BinaryResult, ElementResult;
    OperandsErased(e);
    if e.Construct? || e.ObjectLit? {
      KeysErased(e);
    }
  }

  lemma CombineErased(cfg: Config, o: Origin, f: Frame, g: Frame, a: State, b: State, e: Expr, values: seq<Value>)
    requires IsStrict(e) && |values| == |Operands(e)| && !e.Call?
    requires SameFrame(f, g) && SameState(cfg, o, a, b)
    ensures IsStrict(Erase(e)) && |Operands(Erase(e))| == |Operands(e)|
    ensures SameOut(cfg, o, Combine(cfg, f, a, e, values), Combine(cfg, g, b, Erase(e), values))
  {
    hide Alike, ErasedFunctions, EffectResult, PureResult;
    OperandsErased(e);
    if e.Effect? {
      EffectSame(cfg, o, f, g, a, b, e.op, values);
    } else {
      PureErased(cfg, e, values);
    }
  }

  lemma ChecksErased(cfg: Config, e: Expr)
    requires !e.Located?
    ensures Refusal(cfg, Erase(e)) == Refusal(cfg, e)
    ensures CheckOf(cfg, Erase(e)) == CheckOf(cfg, e)
  {
    if e.Construct? {
      KeysErased(e);
    }
  }

  lemma WriteSame(cfg: Config, o: Origin, f: Frame, g: Frame, a: State, b: State, place: Place, v: Value)
    requires SameFrame(f, g) && SameState(cfg, o, a, b)
    ensures SameOut(cfg, o, Write(cfg, f, a, place, v), Write(cfg, g, b, place, v))
  {
    hide Alike, ErasedFunctions, Set, HasType;
  }

  lemma {:induction false} BindParametersSame(
    cfg: Config, o: Origin, f: Frame, g: Frame, a: State, b: State, parameters: seq<Parameter>, args: seq<Value>, i: nat, scope: map<string, nat>)
    requires SameFrame(f, g) && SameState(cfg, o, a, b)
    ensures SameOut(cfg, o, BindParameters(cfg, f, a, parameters, args, i, scope), BindParameters(cfg, g, b, parameters, args, i, scope))
    decreases |parameters| - i
  {
    hide Alike, ErasedFunctions, CheckType;
    if i < |parameters| && i < |args| {
      var annotation := ResolveAnnotation(cfg.types, parameters[i].annotation);
      BindParametersSame(cfg, o, f, g, Allocate(a, annotation, Some(args[i]), true), Allocate(b, annotation, Some(args[i]), true),
                         parameters, args, i + 1, scope[parameters[i].name := |a.bindings|]);
    }
  }

  lemma LeaveSame(cfg: Config, o: Origin, f: Frame, g: Frame, a: State, b: State, callee: FunctionDef, other: FunctionDef, flow: Flow)
    requires SameFrame(f, g) && SameState(cfg, o, a, b) && ErasedFunction(callee, other)
    ensures SameOut(cfg, o, Leave(cfg, f, a, callee, flow), Leave(cfg, g, b, other, flow))
  {
    hide Alike, ErasedFunctions, CheckType;
  }

  lemma LetResultSame(cfg: Config, o: Origin, f: Frame, g: Frame, a: State, b: State, slot: Option<nat>, value: Expr, v: Value)
    requires SameFrame(f, g) && SameState(cfg, o, a, b)
    ensures SameOut(cfg, o, LetResult(cfg, f, a, slot, value, v), LetResult(cfg, g, b, slot, Erase(value), v))
  {
    hide Alike, ErasedFunctions, CheckType;
  }

  lemma {:induction false} ReserveSame(
    cfg: Config, o: Origin, a: State, b: State, stmts: seq<Stmt>, bare: seq<Stmt>, env: Environment, slots: seq<Option<nat>>)
    requires SameState(cfg, o, a, b) && ErasedList(stmts, bare)
    ensures var r, q := Reserve(cfg, a, stmts, env, slots), Reserve(cfg, b, bare, env, slots);
            r.env == q.env && r.slots == q.slots && SameState(cfg, o, r.st, q.st)
    decreases |stmts| - |slots|
  {
    hide Alike, ErasedFunctions;
    if |slots| < |stmts| {
      EraseUnspannedStmt(stmts[|slots|]);
      var stmt := stmts[|slots|].Unspanned();
      var more := slots + [Some(|a.bindings|)];
      if stmt.Let? {
        var annotation := ResolveAnnotation(cfg.types, stmt.annotation);
        ReserveSame(cfg, o, Allocate(a, annotation, None, true), Allocate(b, annotation, None, true), stmts, bare, env, more);
      } else if stmt.Function? {
        ReserveSame(cfg, o, Allocate(a, None, None, false), Allocate(b, None, None, false), stmts, bare,
                    Bind(env, stmt.name, |a.bindings|), more);
      } else {
        ReserveSame(cfg, o, a, b, stmts, bare, env, slots + [None]);
      }
    }
  }

  lemma DefinitionErased(cfg: Config, stmt: Stmt, bare: Stmt, env: Environment)
    requires stmt.Unspanned().Function? && bare == EraseStmt(stmt)
    ensures bare.Unspanned().Function? && ErasedFunction(Definition(cfg, stmt, env), Definition(cfg, bare, env))
  {
    EraseUnspannedStmt(stmt);
  }

  lemma InstallOneSame(cfg: Config, o: Origin, a: State, b: State, stmt: Stmt, bare: Stmt, env: Environment, slot: nat)
    requires SameState(cfg, o, a, b) && stmt.Unspanned().Function? && bare == EraseStmt(stmt) && slot < |a.bindings|
    requires bare.Unspanned().Function?
    ensures SameState(cfg, o, Store(a.(functions := a.functions + [Definition(cfg, stmt, env)]), slot, FunctionValue(|a.functions|)),
                           Store(b.(functions := b.functions + [Definition(cfg, bare, env)]), slot, FunctionValue(|b.functions|)))
  {
    hide Alike, ErasedFunction, Definition;
    DefinitionErased(cfg, stmt, bare, env);
  }

  lemma {:induction false} InstallSame(
    cfg: Config, o: Origin, a: State, b: State, stmts: seq<Stmt>, bare: seq<Stmt>, slots: seq<Option<nat>>, env: Environment, i: nat)
    requires SameState(cfg, o, a, b) && ErasedList(stmts, bare)
    ensures SameState(cfg, o, Install(cfg, a, stmts, slots, env, i), Install(cfg, b, bare, slots, env, i))
    decreases |stmts| - i
  {
    hide Alike, ErasedFunctions, Definition;
    if i < |stmts| && i < |slots| {
      EraseUnspannedStmt(stmts[i]);
      var stmt := stmts[i].Unspanned();
      if stmt.Let? && slots[i].Some? {
        InstallSame(cfg, o, a, b, stmts, bare, slots, Bind(env, stmt.name, slots[i].value), i + 1);
      } else if stmt.Function? && slots[i].Some? && slots[i].value < |a.bindings| {
        InstallOneSame(cfg, o, a, b, stmts[i], bare[i], env, slots[i].value);
        assert |a.functions| == |b.functions| by { FunctionCount(a.functions, b.functions); }
        InstallSame(cfg, o, Store(a.(functions := a.functions + [Definition(cfg, stmts[i], env)]), slots[i].value, FunctionValue(|a.functions|)),
                    Store(b.(functions := b.functions + [Definition(cfg, bare[i], env)]), slots[i].value, FunctionValue(|b.functions|)),
                    stmts, bare, slots, env, i + 1);
      } else {
        InstallSame(cfg, o, a, b, stmts, bare, slots, env, i + 1);
      }
    }
  }

  lemma FunctionCount(a: seq<FunctionDef>, b: seq<FunctionDef>)
    requires ErasedFunctions(a, b)
    ensures |a| == |b| && forall i | 0 <= i < |a| :: ErasedFunction(a[i], b[i])
  {
  }

  // ----- expressions -----

  lemma {:induction false} EvaluateSame(cfg: Config, o: Origin, f: Frame, g: Frame, a: State, b: State, e: Expr, env: Environment)
    requires SameFrame(f, g) && SameState(cfg, o, a, b)
    ensures SameOut(cfg, o, Evaluate(cfg, f, a, e, env), Evaluate(cfg, g, b, Erase(e), env))
    decreases a.steps, 0, e
  {
    hide Alike, ErasedFunctions, Inner;
    if e.Located? {
      EvaluateSame(cfg, o, f.(span := Some(e.span)), g, a, b, e.inner, env);
      return;
    }
    hide Evaluate;
    EvaluateSteps(cfg, f, a, e, env);
    EvaluateSteps(cfg, g, b, Erase(e), env);
    if a.steps == 0 || f.depth >= cfg.limits.expressionDepth { return; }
    InnerSame(cfg, o, f.(depth := f.depth + 1), g.(depth := g.depth + 1), a.(steps := a.steps - 1), b.(steps := b.steps - 1), e, env);
  }

  lemma {:induction false} InnerSame(cfg: Config, o: Origin, f: Frame, g: Frame, a: State, b: State, e: Expr, env: Environment)
    requires SameFrame(f, g) && SameState(cfg, o, a, b) && !e.Located?
    ensures SameOut(cfg, o, Inner(cfg, f, a, e, env), Inner(cfg, g, b, Erase(e), env))
    decreases a.steps, 3
  {
    hide Alike, ErasedFunctions;
    OperandsErased(e);
    if e.Identifier? {
    } else if e.Assignment? {
      AssignSame(cfg, o, f, g, a, b, e.target, e.value, env);
    } else if IsStrict(e) {
      StrictSame(cfg, o, f, g, a, b, e, env);
    } else {
      LogicalSame(cfg, o, f, g, a, b, e.left, e.binary, e.right, env);
    }
  }

  lemma {:induction false} StrictSame(cfg: Config, o: Origin, f: Frame, g: Frame, a: State, b: State, e: Expr, env: Environment)
    requires SameFrame(f, g) && SameState(cfg, o, a, b) && IsStrict(e) && IsStrict(Erase(e))
    ensures SameOut(cfg, o, Strict(cfg, f, a, e, env), Strict(cfg, g, b, Erase(e), env))
    decreases a.steps, 2
  {
    hide Alike, ErasedFunctions, Combine, Refusal, CheckOf;
    ChecksErased(cfg, e);
    OperandsErased(e);
    if Refusal(cfg, e).Some? { return; }
    EvaluateFromSame(cfg, o, f, g, a, b, Operands(e), Operands(Erase(e)), [], CheckOf(cfg, e), env);
    var x := EvaluateFrom(cfg, f, a, Operands(e), [], CheckOf(cfg, e), env);
    var y := EvaluateFrom(cfg, g, b, Operands(Erase(e)), [], CheckOf(cfg, e), env);
    if x.res.Err? { return; }
    if e.Call? {
      ApplySame(cfg, o, f, g, x.st, y.st, x.res.value[0], x.res.value[1..], env);
    } else {
      CombineErased(cfg, o, f, g, x.st, y.st, e, x.res.value);
    }
  }

  lemma {:induction false} EvaluateFromSame(
    cfg: Config, o: Origin, f: Frame, g: Frame, a: State, b: State, es: seq<Expr>, bare: seq<Expr>, values: seq<Value>, check: Check, env: Environment)
    requires SameFrame(f, g) && SameState(cfg, o, a, b) && ErasedAll(es, bare)
    ensures SameOut(cfg, o, EvaluateFrom(cfg, f, a, es, values, check, env), EvaluateFrom(cfg, g, b, bare, values, check, env))
    decreases a.steps, 1
  {
    hide Alike, ErasedFunctions, ElementError, Erase;
    if |values| >= |es| { return; }
    EvaluateSame(cfg, o, f, g, a, b, es[|values|], env);
    var x, y := Evaluate(cfg, f, a, es[|values|], env), Evaluate(cfg, g, b, bare[|values|], env);
    if x.res.Err? { return; }
    if ElementError(cfg, check, |values|, x.res.value).Some? { return; }
    EvaluateFromSame(cfg, o, f, g, x.st, y.st, es, bare, values + [x.res.value], check, env);
  }

  lemma {:induction false} LogicalSame(
    cfg: Config, o: Origin, f: Frame, g: Frame, a: State, b: State, left: Expr, op: BinaryOp, right: Expr, env: Environment)
    requires SameFrame(f, g) && SameState(cfg, o, a, b)
    ensures SameOut(cfg, o, Logical(cfg, f, a, left, op, right, env), Logical(cfg, g, b, Erase(left), op, Erase(right), env))
    decreases a.steps, 2
  {
    hide Alike, ErasedFunctions, Erase, Logical, Evaluate;
    LogicalSteps(cfg, f, a, left, op, right, env);
    LogicalSteps(cfg, g, b, Erase(left), op, Erase(right), env);
    EvaluateSame(cfg, o, f, g, a, b, left, env);
    var x, y := Evaluate(cfg, f, a, left, env), Evaluate(cfg, g, b, Erase(left), env);
    if x.res.Err? || !x.res.value.BooleanValue? { return; }
    if (op.And? && !x.res.value.boolean) || (op.Or? && x.res.value.boolean) { return; }
    EvaluateSame(cfg, o, f, g, x.st, y.st, right, env);
  }

  lemma {:induction false} AssignSame(
    cfg: Config, o: Origin, f: Frame, g: Frame, a: State, b: State, target: Expr, value: Expr, env: Environment)
    requires SameFrame(f, g) && SameState(cfg, o, a, b)
    ensures SameOut(cfg, o, Assign(cfg, f, a, target, value, env), Assign(cfg, g, b, Erase(target), Erase(value), env))
    decreases a.steps, 2
  {
    hide Alike, ErasedFunctions, Erase, Write, Permission;
    TargetSame(cfg, o, f, g, a, b, target, env);
    var x, y := Target(cfg, f, a, target, env), Target(cfg, g, b, Erase(target), env);
    if x.res.Err? { return; }
    var place := x.res.value;
    PermissionSame(f, g, x.st, y.st, place.id);
    if Permission(f, x.st, place.id).Some? { return; }
    EvaluateSame(cfg, o, f, g, x.st, y.st, value, env);
    var r, q := Evaluate(cfg, f, x.st, value, env), Evaluate(cfg, g, y.st, Erase(value), env);
    if r.res.Err? { return; }
    WriteSame(cfg, o, f, g, r.st, q.st, place, r.res.value);
  }

  lemma PermissionSame(f: Frame, g: Frame, a: State, b: State, id: nat)
    requires SameFrame(f, g) && a.bindings == b.bindings
    ensures Permission(f, a, id) == Permission(g, b, id)
  {
  }

  lemma {:induction false} TargetSame(cfg: Config, o: Origin, f: Frame, g: Frame, a: State, b: State, e: Expr, env: Environment)
    requires SameFrame(f, g) && SameState(cfg, o, a, b)
    ensures SameOut(cfg, o, Target(cfg, f, a, e, env), Target(cfg, g, b, Erase(e), env))
    decreases a.steps, 1, e
  {
    hide Alike, ErasedFunctions, Evaluate;
    if e.Located? {
      TargetSame(cfg, o, f.(span := Some(e.span)), g, a, b, e.inner, env);
      return;
    }
    var bare := Erase(e);
    hide Target;
    if a.steps == 0 || (!e.Property? && !e.Index?) {
      TargetLeaf(cfg, f, a, e, env);
      TargetLeaf(cfg, g, b, bare, env);
      return;
    }
    hide Erase;
    TargetSteps(cfg, f, a, e, env);
    TargetSteps(cfg, g, b, bare, env);
    TargetSame(cfg, o, f, g, a.(steps := a.steps - 1), b.(steps := b.steps - 1), e.owner, env);
    var x := Target(cfg, f, a.(steps := a.steps - 1), e.owner, env);
    var y := Target(cfg, g, b.(steps := b.steps - 1), Erase(e.owner), env);
    if x.res.Err? || e.Property? { return; }
    EvaluateSame(cfg, o, f, g, x.st, y.st, e.index, env);
  }

  // ----- calls -----

  lemma {:induction false} ApplySame(cfg: Config, o: Origin, f: Frame, g: Frame, a: State, b: State, callee: Value, args: seq<Value>, env: Environment)
    requires SameFrame(f, g) && SameState(cfg, o, a, b)
    ensures SameOut(cfg, o, Apply(cfg, f, a, callee, args), Apply(cfg, g, b, callee, args))
    decreases a.steps, 8
  {
    hide Alike, ErasedFunctions, BuiltinResult, Print, Joined;
    FunctionCount(a.functions, b.functions);
    if callee.BuiltinValue? {
      BuiltinSame(cfg, o, f, g, a, b, callee.builtin, args);
    } else if callee.PrintValue? {
      PrintAlike(cfg, o, a.host, b.host, Joined(cfg, args));
    } else if callee.FunctionValue? && callee.id < |a.functions| {
      CallSame(cfg, o, f, g, a, b, a.functions[callee.id], b.functions[callee.id], args);
    }
  }

  lemma {:induction false} CallSame(
    cfg: Config, o: Origin, f: Frame, g: Frame, a: State, b: State, callee: FunctionDef, other: FunctionDef, args: seq<Value>)
    requires SameFrame(f, g) && SameState(cfg, o, a, b) && ErasedFunction(callee, other)
    ensures SameOut(cfg, o, CallFunction(cfg, f, a, callee, args), CallFunction(cfg, g, b, other, args))
    decreases a.steps, 7
  {
    hide Alike, ErasedFunctions, EraseStmt, BindParameters, Leave;
    BindParametersSame(cfg, o, f, g, a, b, callee.parameters, args, 0, map[]);
    var x := BindParameters(cfg, f, a, callee.parameters, args, 0, map[]);
    var y := BindParameters(cfg, g, b, callee.parameters, args, 0, map[]);
    if x.res.Err? { return; }
    var env := callee.closure + [x.res.value];
    BodySame(cfg, o, Enter(f, callee), Enter(g, other), x.st, y.st, callee.body, env);
    var r, q := Body(cfg, Enter(f, callee), x.st, callee.body, env), Body(cfg, Enter(g, other), y.st, other.body, env);
    if r.res.Err? { return; }
    LeaveSame(cfg, o, Enter(f, callee), Enter(g, other), r.st, q.st, callee, other, r.res.value);
  }

  // ----- statements -----

  lemma {:induction false} StatementsSame(
    cfg: Config, o: Origin, f: Frame, g: Frame, a: State, b: State, stmts: seq<Stmt>, bare: seq<Stmt>, env: Environment)
    requires SameFrame(f, g) && SameState(cfg, o, a, b) && ErasedList(stmts, bare)
    ensures SameOut(cfg, o, Statements(cfg, f, a, stmts, env), Statements(cfg, g, b, bare, env))
    decreases a.steps, 4
  {
    hide Alike, ErasedFunctions, EraseStmt, Reserve, Install;
    if env == [] { return; }
    ReserveSame(cfg, o, a, b, stmts, bare, env, []);
    var r, q := Reserve(cfg, a, stmts, env, []), Reserve(cfg, b, bare, env, []);
    InstallSame(cfg, o, r.st, q.st, stmts, bare, r.slots, r.env, 0);
    ExecuteFromSame(cfg, o, f, g, Install(cfg, r.st, stmts, r.slots, r.env, 0), Install(cfg, q.st, bare, r.slots, r.env, 0),
                    stmts, bare, r.slots, r.env, 0);
  }

  lemma {:induction false} RunLetSame(
    cfg: Config, o: Origin, f: Frame, g: Frame, a: State, b: State, slot: Option<nat>, value: Expr, env: Environment)
    requires SameFrame(f, g) && SameState(cfg, o, a, b)
    ensures SameOut(cfg, o, RunLet(cfg, f, a, slot, value, env), RunLet(cfg, g, b, slot, Erase(value), env))
    decreases a.steps, 1
  {
    hide Alike, ErasedFunctions, Erase, LetResult;
    EvaluateSame(cfg, o, f, g, a, b, value, env);
    var x, y := Evaluate(cfg, f, a, value, env), Evaluate(cfg, g, b, Erase(value), env);
    if x.res.Err? { return; }
    LetResultSame(cfg, o, f, g, x.st, y.st, slot, value, x.res.value);
  }

  lemma KindErased(s: Stmt)
    requires !s.LocatedStmt?
    ensures EraseStmt(s).Let? == s.Let? && (s.Let? ==> EraseStmt(s) == Let(s.name, s.annotation, Erase(s.value)))
  {
    hide Erase;
  }

  lemma {:induction false} ExecuteFromSame(
    cfg: Config, o: Origin, f: Frame, g: Frame, a: State, b: State, stmts: seq<Stmt>, bare: seq<Stmt>, slots: seq<Option<nat>>, env: Environment, i: nat)
    requires SameFrame(f, g) && SameState(cfg, o, a, b) && ErasedList(stmts, bare)
    ensures SameOut(cfg, o, ExecuteFrom(cfg, f, a, stmts, slots, env, i), ExecuteFrom(cfg, g, b, bare, slots, env, i))
    decreases a.steps, 3
  {
    hide Alike, ErasedFunctions;
    if i >= |stmts| || i >= |slots| || a.steps == 0 { return; }
    EraseUnspannedStmt(stmts[i]);
    KindErased(stmts[i].Unspanned());
    hide ExecuteFrom, RunLet, Execute, EraseStmt, Erase;
    ExecuteFromSteps(cfg, f, a, stmts, slots, env, i);
    ExecuteFromSteps(cfg, g, b, bare, slots, env, i);
    var stmt, other := stmts[i].Unspanned(), bare[i].Unspanned();
    var here, there := f.(span := stmts[i].Where().Or(f.span)), g.(span := bare[i].Where().Or(g.span));
    var x, y := a.(steps := a.steps - 1), b.(steps := b.steps - 1);
    if stmt.Let? {
      RunLetSame(cfg, o, here, there, x, y, slots[i], stmt.value, env);
      var r, q := RunLet(cfg, here, x, slots[i], stmt.value, env), RunLet(cfg, there, y, slots[i], other.value, env);
      if r.res.Err? { return; }
      ExecuteFromSame(cfg, o, f, g, r.st, q.st, stmts, bare, slots, Bind(env, stmt.name, slots[i].GetOr(0)), i + 1);
    } else {
      ExecuteSame(cfg, o, here, there, x, y, stmt, env);
      var r, q := Execute(cfg, here, x, stmt, env), Execute(cfg, there, y, other, env);
      if r.res.Err? || !r.res.value.Normal? { return; }
      ExecuteFromSame(cfg, o, f, g, r.st, q.st, stmts, bare, slots, env, i + 1);
    }
  }

  lemma {:induction false} BodySame(cfg: Config, o: Origin, f: Frame, g: Frame, a: State, b: State, body: Stmt, env: Environment)
    requires SameFrame(f, g) && SameState(cfg, o, a, b)
    ensures SameOut(cfg, o, Body(cfg, f, a, body, env), Body(cfg, g, b, EraseStmt(body), env))
    decreases a.steps, 5, body
  {
    hide Alike, ErasedFunctions;
    if body.LocatedStmt? {
      BodySame(cfg, o, f.(span := Some(body.span)), g, a, b, body.inner, env);
    } else {
      ContentsErased(body);
      StatementsSame(cfg, o, f, g, a, b, Contents(body), Contents(EraseStmt(body)), env);
    }
  }

  /** Plans for a statement and for its erasure. */
  predicate SamePlan(p: Plan, q: Plan) {
    match p
    case Done(flow) => q == p
    case Refuse(message, _) => q.Refuse? && q.message == message
    case Run(body) => q == Run(EraseStmt(body))
    case Repeat(body) => q == Repeat(EraseStmt(body))
    case Iterate(variable, values, body) => q == Iterate(variable, values, EraseStmt(body))
    case Spread(variable, values, body) => q == Spread(variable, values, EraseStmt(body))
  }

  lemma {:induction false} SelectArmErased(arms: seq<MatchArm>, bare: seq<MatchArm>, v: Value, i: nat)
    requires ErasedArms(arms, bare)
    ensures SelectArm(bare, v, i) == SelectArm(arms, v, i)
    decreases |arms| - i
  {
    if i < |arms| {
      PatternErased(arms[i].pattern);
      SelectArmErased(arms, bare, v, i + 1);
    }
  }

  lemma {:induction false} PatternErased(p: Pattern)
    ensures p.Unspanned().Unspanned() == p.Unspanned()
  {
  }

  lemma PlanErased(cfg: Config, f: Frame, g: Frame, s: Stmt, v: Value)
    requires SameFrame(f, g) && !s.LocatedStmt?
    ensures SamePlan(PlanOf(cfg, f, s, v), PlanOf(cfg, g, EraseStmt(s), v))
  {
    hide CheckType, Erase, SelectArm;
    if s.Match? {
      SelectArmErased(s.arms, EraseStmt(s).arms, v, 0);
      ArmErased(s, v);
    }
  }

  lemma ArmErased(s: Stmt, v: Value)
    requires s.Match?
    ensures var arm := SelectArm(s.arms, v, 0);
            arm.Some? ==>
              && EraseStmt(s).Match? && |EraseStmt(s).arms| == |s.arms|
              && EraseStmt(s).arms[arm.value].body == EraseStmt(s.arms[arm.value].body)
  {
    hide Erase;
  }

  lemma HeadErased(s: Stmt)
    requires !s.LocatedStmt?
    ensures EraseStmt(s).Block? == s.Block?
    ensures HeadOf(EraseStmt(s)) == if HeadOf(s).Some? then Some(Erase(HeadOf(s).value)) else None
  {
    hide Erase;
  }

  lemma {:induction false} ExecuteSame(cfg: Config, o: Origin, f: Frame, g: Frame, a: State, b: State, s: Stmt, env: Environment)
    requires SameFrame(f, g) && SameState(cfg, o, a, b)
    ensures SameOut(cfg, o, Execute(cfg, f, a, s, env), Execute(cfg, g, b, EraseStmt(s), env))
    decreases a.steps, 8, s
  {
    hide Alike, ErasedFunctions, Erase, PlanOf, HeadOf;
    if s.LocatedStmt? {
      ExecuteSame(cfg, o, f.(span := Some(s.span)), g, a, b, s.inner, env);
      return;
    }
    HeadErased(s);
    if s.Block? {
      BodySame(cfg, o, f, g, a, b, s, env + [map[]]);
      return;
    }
    hide EraseStmt;
    if HeadOf(s).None? {
      PlanErased(cfg, f, g, s, NullValue);
      return;
    }
    var head := HeadOf(s).value;
    EvaluateSame(cfg, o, f, g, a, b, head, env);
    var x, y := Evaluate(cfg, f, a, head, env), Evaluate(cfg, g, b, Erase(head), env);
    if x.res.Err? { return; }
    PlanErased(cfg, f, g, s, x.res.value);
    ResumeSame(cfg, o, f, g, x.st, y.st, s, PlanOf(cfg, f, s, x.res.value), PlanOf(cfg, g, EraseStmt(s), x.res.value), env);
  }

  lemma {:induction false} ResumeSame(
    cfg: Config, o: Origin, f: Frame, g: Frame, a: State, b: State, s: Stmt, plan: Plan, other: Plan, env: Environment)
    requires SameFrame(f, g) && SameState(cfg, o, a, b) && SamePlan(plan, other)
    ensures SameOut(cfg, o, Resume(cfg, f, a, s, plan, env), Resume(cfg, g, b, EraseStmt(s), other, env))
    decreases a.steps, 10
  {
    hide Alike, EraseStmt, ErasedFunctions;
    if plan.Run? {
      BodySame(cfg, o, f, g, a, b, plan.body, env + [map[]]);
    } else if plan.Repeat? {
      BodySame(cfg, o, f, g, a, b, plan.body, env + [map[]]);
      var x, y := Body(cfg, f, a, plan.body, env + [map[]]), Body(cfg, g, b, other.body, env + [map[]]);
      if x.res.Err? || x.res.value.ReturnFlow? || x.res.value.BreakFlow? { return; }
      ExecuteSame(cfg, o, f, g, x.st, y.st, s, env);
    } else if plan.Iterate? {
      EachSame(cfg, o, f, g, a, b, plan.variable, plan.values, 0, plan.body, env);
    } else if plan.Spread? {
      BatchesSame(cfg, o, f, g, a, b, Snap(a), Snap(b), plan.variable, plan.values, 0, Width(cfg, f), plan.body, env);
    }
  }

  lemma {:induction false} EachSame(
    cfg: Config, o: Origin, f: Frame, g: Frame, a: State, b: State, variable: string, values: seq<Value>, i: nat, body: Stmt, env: Environment)
    requires SameFrame(f, g) && SameState(cfg, o, a, b)
    ensures SameOut(cfg, o, EachFrom(cfg, f, a, variable, values, i, body, env), EachFrom(cfg, g, b, variable, values, i, EraseStmt(body), env))
    decreases a.steps, 7
  {
    hide Alike, EraseStmt, ErasedFunctions;
    if i >= |values| || a.steps == 0 { return; }
    var x := Allocate(a.(steps := a.steps - 1), None, Some(values[i]), true);
    var y := Allocate(b.(steps := b.steps - 1), None, Some(values[i]), true);
    var scope := env + [map[variable := |a.bindings|]];
    BodySame(cfg, o, f, g, x, y, body, scope);
    var r, q := Body(cfg, f, x, body, scope), Body(cfg, g, y, EraseStmt(body), scope);
    if r.res.Err? || r.res.value.ReturnFlow? || r.res.value.BreakFlow? { return; }
    EachSame(cfg, o, f, g, r.st, q.st, variable, values, i + 1, body, env);
  }

  // ----- workers -----

  ghost predicate AlikeAll(cfg: Config, o: Origin, hs: seq<HostState>, ks: seq<HostState>) {
    |hs| == |ks| && forall i | 0 <= i < |hs| :: Alike(cfg, o, hs[i], ks[i])
  }

  predicate SameSnapshot(a: Snapshot, b: Snapshot) {
    a.bindings == b.bindings && ErasedFunctions(a.functions, b.functions)
  }

  predicate SameOutcome(a: Outcome, b: Outcome) {
    a.lines == b.lines && a.error.Some? == b.error.Some? && (a.error.Some? ==> SameError(a.error.value, b.error.value))
  }

  predicate SameOutcomes(a: seq<Outcome>, b: seq<Outcome>) {
    |a| == |b| && forall i | 0 <= i < |a| :: SameOutcome(a[i], b[i])
  }

  lemma ForkedAlike(cfg: Config, o: Origin, h: HostState, k: HostState)
    requires Alike(cfg, o, h, k)
    ensures Alike(cfg, o, HostState(h.history + [Forked], None), HostState(k.history + [Forked], None))
  {
    AskAlike(cfg, o, h.(buffer := None), k.(buffer := None), Forked);
  }

  lemma {:induction false} ForkSame(
    cfg: Config, o: Origin, f: Frame, g: Frame, a: State, b: State, count: nat, hs: seq<HostState>, ks: seq<HostState>)
    requires SameFrame(f, g) && SameState(cfg, o, a, b) && AlikeAll(cfg, o, hs, ks)
    ensures var x, y := ForkFrom(cfg, f, a, count, hs), ForkFrom(cfg, g, b, count, ks);
            && SameState(cfg, o, x.st, y.st)
            && (if x.res.Ok? then y.res.Ok? && AlikeAll(cfg, o, x.res.value, y.res.value)
                else y.res.Err? && SameError(x.res.error, y.res.error))
    decreases count - |hs|
  {
    hide Alike, ErasedFunctions;
    if |hs| >= count || a.steps == 0 { return; }
    AskAlike(cfg, o, a.host, b.host, Fork);
    var (asked, reply) := Ask(cfg, a.host, Fork);
    var (other, _) := Ask(cfg, b.host, Fork);
    ForkedAlike(cfg, o, asked, other);
    if reply.Refused? { return; }
    ForkSame(cfg, o, f, g, a.(steps := a.steps - 1, host := asked), b.(steps := b.steps - 1, host := other), count,
             hs + [HostState(asked.history + [Forked], None)], ks + [HostState(other.history + [Forked], None)]);
  }

  lemma {:induction false} WorkerSame(
    cfg: Config, o: Origin, f: Frame, g: Frame, s: Snapshot, t: Snapshot, steps: nat, h: HostState, k: HostState, value: Value,
    variable: string, body: Stmt, env: Environment)
    requires SameFrame(f, g) && SameSnapshot(s, t) && Alike(cfg, o, h, k)
    ensures SameOut(cfg, o, Worker(cfg, f, s, steps, h, value, variable, body, env),
                         Worker(cfg, g, t, steps, k, value, variable, EraseStmt(body), env))
    decreases steps, 6
  {
    hide EraseStmt, ErasedFunctions;
    var a, b := WorkerStart(s, steps, h, value), WorkerStart(t, steps, k, value);
    assert Alike(cfg, o, a.host, b.host);
    BodySame(cfg, o, WorkerFrame(f, s), WorkerFrame(g, t), a, b, body, env + [map[variable := |s.bindings|]]);
  }

  lemma WorkerOutcomeSame(cfg: Config, o: Origin, f: Frame, g: Frame, x: Out<Flow>, y: Out<Flow>, index: nat)
    requires SameFrame(f, g) && SameOut(cfg, o, x, y)
    ensures SameOutcome(WorkerOutcome(f, x, index), WorkerOutcome(g, y, index))
  {
    hide ErasedFunctions;
  }

  lemma {:induction false} WorkersSame(
    cfg: Config, o: Origin, f: Frame, g: Frame, a: State, b: State, s: Snapshot, t: Snapshot, variable: string, values: seq<Value>,
    first: nat, hs: seq<HostState>, ks: seq<HostState>, done: seq<Outcome>, other: seq<Outcome>, body: Stmt, env: Environment)
    requires SameFrame(f, g) && SameState(cfg, o, a, b) && SameSnapshot(s, t) && AlikeAll(cfg, o, hs, ks) && SameOutcomes(done, other)
    ensures var x := WorkersFrom(cfg, f, a, s, variable, values, first, hs, done, body, env);
            var y := WorkersFrom(cfg, g, b, t, variable, values, first, ks, other, EraseStmt(body), env);
            SameState(cfg, o, x.st, y.st) && SameOutcomes(x.outcomes, y.outcomes)
    decreases a.steps, 7, |values| - |done|
  {
    hide EraseStmt, Alike, ErasedFunctions, SameSnapshot, Worker, WorkerOutcome, SameOutcome;
    if |done| >= |values| || |done| >= |hs| { return; }
    var i := |done|;
    WorkerSame(cfg, o, f, g, s, t, a.steps, hs[i], ks[i], values[i], variable, body, env);
    var x := Worker(cfg, f, s, a.steps, hs[i], values[i], variable, body, env);
    var y := Worker(cfg, g, t, a.steps, ks[i], values[i], variable, EraseStmt(body), env);
    WorkerOutcomeSame(cfg, o, f, g, x, y, first + i);
    WorkersSame(cfg, o, f, g, a.(steps := x.st.steps), b.(steps := y.st.steps), s, t, variable, values, first, hs, ks,
                done + [WorkerOutcome(f, x, first + i)], other + [WorkerOutcome(g, y, first + i)], body, env);
  }

  lemma {:induction false} PrintFromAlike(cfg: Config, o: Origin, f: Frame, g: Frame, h: HostState, k: HostState, lines: seq<string>, i: nat)
    requires SameFrame(f, g) && Alike(cfg, o, h, k)
    ensures var x, y := PrintFrom(cfg, f, h, lines, i), PrintFrom(cfg, g, k, lines, i);
            Alike(cfg, o, x.0, y.0) && x.1.Some? == y.1.Some? && (x.1.Some? ==> SameError(x.1.value, y.1.value))
    decreases |lines| - i
  {
    hide Alike, Print;
    if i < |lines| {
      PrintAlike(cfg, o, h, k, lines[i]);
      if Print(cfg, h, lines[i]).1.None? {
        PrintFromAlike(cfg, o, f, g, Print(cfg, h, lines[i]).0, Print(cfg, k, lines[i]).0, lines, i + 1);
      }
    }
  }

  predicate SameFailure(a: Option<RuntimeError>, b: Option<RuntimeError>) {
    a.Some? == b.Some? && (a.Some? ==> SameError(a.value, b.value))
  }

  lemma {:induction false} ReplaySame(
    cfg: Config, o: Origin, f: Frame, g: Frame, h: HostState, k: HostState, outcomes: seq<Outcome>, others: seq<Outcome>, i: nat,
    first: Option<RuntimeError>, other: Option<RuntimeError>)
    requires SameFrame(f, g) && Alike(cfg, o, h, k) && SameOutcomes(outcomes, others) && SameFailure(first, other)
    ensures var x, y := Replay(cfg, f, h, outcomes, i, first), Replay(cfg, g, k, others, i, other);
            Alike(cfg, o, x.0, y.0) && SameFailure(x.1, y.1)
    decreases |outcomes| - i
  {
    hide Alike, PrintFrom;
    if i < |outcomes| {
      assert SameOutcome(outcomes[i], others[i]);
      PrintFromAlike(cfg, o, f, g, h, k, outcomes[i].lines, 0);
      var (next, failure) := PrintFrom(cfg, f, h, outcomes[i].lines, 0);
      var (next', failure') := PrintFrom(cfg, g, k, others[i].lines, 0);
      ReplaySame(cfg, o, f, g, next, next', outcomes, others, i + 1,
                 first.Or(failure).Or(outcomes[i].error), other.Or(failure').Or(others[i].error));
    }
  }

  lemma {:induction false} BatchSame(
    cfg: Config, o: Origin, f: Frame, g: Frame, a: State, b: State, s: Snapshot, t: Snapshot, variable: string, values: seq<Value>,
    first: nat, body: Stmt, env: Environment)
    requires SameFrame(f, g) && SameState(cfg, o, a, b) && SameSnapshot(s, t)
    ensures SameOut(cfg, o, Batch(cfg, f, a, s, variable, values, first, body, env),
                         Batch(cfg, g, b, t, variable, values, first, EraseStmt(body), env))
    decreases a.steps, 8
  {
    hide EraseStmt, Alike, ErasedFunctions, SameSnapshot, ForkFrom, WorkersFrom, Replay, SameOutcomes, AlikeAll;
    assert AlikeAll(cfg, o, [], []) by { NoHostsAlike(cfg, o); }
    ForkSame(cfg, o, f, g, a, b, |values|, [], []);
    var x, y := ForkFrom(cfg, f, a, |values|, []), ForkFrom(cfg, g, b, |values|, []);
    if x.res.Err? { return; }
    NoOutcomesSame();
    WorkersSame(cfg, o, f, g, x.st, y.st, s, t, variable, values, first, x.res.value, y.res.value, [], [], body, env);
    var r := WorkersFrom(cfg, f, x.st, s, variable, values, first, x.res.value, [], body, env);
    var q := WorkersFrom(cfg, g, y.st, t, variable, values, first, y.res.value, [], EraseStmt(body), env);
    ReplaySame(cfg, o, f, g, r.st.host, q.st.host, r.outcomes, q.outcomes, 0, None, None);
  }

  lemma NoHostsAlike(cfg: Config, o: Origin)
    ensures AlikeAll(cfg, o, [], [])
  {
  }

  lemma NoOutcomesSame()
    ensures SameOutcomes([], [])
  {
  }

  lemma {:induction false} BatchesSame(
    cfg: Config, o: Origin, f: Frame, g: Frame, a: State, b: State, s: Snapshot, t: Snapshot, variable: string, values: seq<Value>,
    start: nat, width: nat, body: Stmt, env: Environment)
    requires SameFrame(f, g) && SameState(cfg, o, a, b) && SameSnapshot(s, t) && width >= 1
    ensures SameOut(cfg, o, Batches(cfg, f, a, s, variable, values, start, width, body, env),
                         Batches(cfg, g, b, t, variable, values, start, width, EraseStmt(body), env))
    decreases a.steps, 9
  {
    hide EraseStmt, Alike, ErasedFunctions, SameSnapshot, Batch;
    if start >= |values| { return; }
    var end := if start + width <= |values| then start + width else |values|;
    BatchSame(cfg, o, f, g, a, b, s, t, variable, values[start..end], start, body, env);
    var x := Batch(cfg, f, a, s, variable, values[start..end], start, body, env);
    var y := Batch(cfg, g, b, t, variable, values[start..end], start, EraseStmt(body), env);
    if x.res.Err? { return; }
    BatchesSame(cfg, o, f, g, x.st, y.st, s, t, variable, values, end, width, body, env);
  }
}
